# NiceTerm: verified models of its stateful cores

NiceTerm is a terminal and SSH client: a Rust back end under Tauri and a React front end. This project models the parts of it whose
behaviour is spread over several functions and over time, and proves what those parts are for.

| file | what it models |
|---|---|
| `ExternalOpenArgs.dfy` | reading `--local`, `--cwd` and URLs from a command line or deep link; URL acceptance; the de-duplication key (scheme case folding, section 6.2.2.1 of RFC 3986) |
| `ExternalOpenBackend.dfy` | the 500 ms de-duplication map (module `Deduplication`) and the per-window queue (module `ExternalOpenBackend`) |
| `ExternalOpenDelivery.dfy` | back end, wake-up events and the claiming hook as one interleaved system |
| `ExternalOpenProgress.dfy` | that a window claims only when it is ready, and that everything is then handed over in a bounded number of steps |
| `ActionLinkSelection.dfy` | which matches of a line become links, and which columns they cover |
| `ActionLinkColumns.dfy` | which cells of a row a link covers, cell by cell |
| `DecorationIndex.dfy` | the memoised decoration index of the viewport as a value, with markers that move with their rows |
| `DecorationRuns.dfy` | when that index is right, over every run |
| `DecorationShown.dfy` | what is drawn against the link spans of the buffer, on every run |
| `DecorationLayer.dfy` | the same index as the source keeps it: caches, disposal callbacks, scan loops |
| `TransferQueue.dfy` | the transfer scheduler: slots per direction, request map, parked set |
| `TransferSlots.dfy` | when the slots hold and when waiting requests stay servable, over every run |
| `TransferOverruns.dfy` | runs on which a report gives away a slot that is not free |
| `TransferCalls.dfy` | which back-end calls a pass makes, and where every request and parked transfer goes over a run |
| `RemotePolling.dfy`, `RemoteGpuOverview.dfy`, `RemoteStats.dfy` | polling guarded by a generation counter |
| `RemoteHistory.dfy`, `RemoteShown.dfy` | what the two hooks show and fetch, as a function of the answers that counted |
| `ChildWindowCommandQueue.dfy` | commands held back until a child window is ready |
| `ChildWindowReadiness.dfy` | when a command is delivered at once, from the history of registrations and signals |
| `ActivityBar.dfy`, `ActivityBarReorder.dfy` | the repair of the activity-bar configuration and the user actions on it |
| `ActivityBarPlaces.dfy` | where the repair puts each item, what it keeps, and what each user action changes |
| `AssetGroups.dfy` | the group forest, with duplicate ids, dangling parents and parent cycles |
| `ShellScanners.dfy` | the segment splitter and the tokenizer behind command suggestions |
| `ShellLines.dfy` | what the scanners make of separators, blanks, quotes and backslashes in text |
| `VirtualList.dfy` | the window of a virtual list |
| `Text.dfy` | shared value types and text helpers |

How the models are built:

* A protocol is a value (`System`, `State`, `Gpu`, ...), a `Step` type with an `Enabled` guard and a `Next` function. A run is a list of
  states and a list of steps (`IsRun`); the theorems are about every state of every run.
* Where the source updates fields in place, a class has those fields, and each of its methods is proved to do what the
  specification function of that step does. Ghost fields stand for what the environment sees: calls in flight, live timers, live
  decorations, handlers running.
* Loops of the source are loops here, proved against a recursive function about which the properties are then proved.
* Ids, labels and tokens that are only compared are abstract types. White space, encoders and readers of single arguments are passed as
  functions where a proof does not depend on which one it is.

## Findings

* **Decorations.** A decoration hangs on a terminal marker that follows its row (src/lib/actionLinksAddon.ts:656-663), while the key it
  is cached under keeps the old row number (src/lib/actionLinksAddon.ts:653-654). A refresh reuses a cached decoration without looking
  at its marker. With links on rows 5 and 6 and one line inserted at row 5, the next refresh leaves two decorations on row 7 and none on
  row 6 (`DecorationRuns.InsertedLineDrawsRowTwice`). Rows inserted at the top also move the sentinel off row 0, and a later trim of as
  many rows goes unnoticed (`DecorationRuns.SentinelDrifts`). `DecorationRuns.RefreshesAreRightIffUndisturbed` gives the exact condition
  on how rows moved between two refreshes; output that moves no row except by trimming always meets it
  (`DecorationRuns.PlainOutputIsRight`).
* **Slots.** That running transfers never exceed a direction's slots does not follow from "no report for a paused or queued transfer"
  alone. A `started` report overwrites the direction of the item (src/context/TransferContext.tsx:273), and it marks an unmanaged item as
  running while its request still waits (src/context/TransferContext.tsx:284-286). Three runs from the empty queue break the bound
  (`TransferOverruns.StrayProgressOverfills`, `TransferOverruns.RedirectedStartOverfills`, `TransferOverruns.StaleStartOverfills`).
  `TransferSlots.SlotsHoldIffStepsFit` gives the exact condition for every run. Whether the Rust side ever sends such reports is not part
  of this model.
* **Stranded requests.** A status written over a transfer whose request is waiting leaves a request that no pass can serve; in the run of
  `TransferOverruns.StaleStartOverfills` a rejected start does that to a retried transfer. `TransferSlots.RequestsWaitIffNoneStranded`
  gives the exact condition.
* **Shell scanners.** Splitting and tokenising agree with one scan of the whole line exactly when no piece between separators ends in
  white space protected by a backslash or an open quote (`ShellScanners.ScansAgreeIffTrimsFreely`). Trimming cuts such white space off
  (`ShellScanners.EscapedTrailingBlankIsLost`).
* **De-duplication.** The pruned map decides like an unbounded history for all keys exactly when no check time pushes an earlier one out
  of the window that a later one brings back in (`Deduplication.AgreesIffOrderly`). `Instant` itself never goes back, but `now` is taken
  before the lock (src-tauri/src/external_open.rs:223, locked at 179-182), so checks of two overlapping calls can run in the other
  order of their times (`Deduplication.BackwardClockForgets`).
* **Scheme test.** The scheme test inside `enqueue_batch` never rejects anything, because extraction has already applied it
  (`ExternalOpenBackend.SchemeTestPasses`).
* **Stale clicks.** A click takes the item's side from the rendered layout but updates the current configuration
  (src/hooks/useActivityBarController.tsx:298-314); it keeps the normal form exactly when the item is still on that side
  (`ActivityBar.SelectKeepsNormalIff`). The repair puts the rest right.

## Model

| member | source | states |
|---|---|---|
| `ExternalOpenArgs.ExtractExternalOpenUrls` | src-tauri/src/external_open.rs:240-284 | the flag-driven loop yields the first ten URLs read, plus the local request if one was asked for and there is room |
| `ExternalOpenArgs.Scan` | src-tauri/src/external_open.rs:240-284 | the loop with its `expecting_cwd_value` flag and early return equals the declarative reading, for any reader of single arguments |
| `ExternalOpenArgs.ReadAsUrlIffSanitizes` | src-tauri/src/external_open.rs:253-272 | an argument is read as a URL exactly when it sanitises: no flag has an allowed scheme |
| `ExternalOpenArgs.SanitizedIsStable` | src-tauri/src/external_open.rs:293-328 | a sanitised URL is trimmed, at most 4096 bytes, of an allowed scheme, and is read as itself on a second pass |
| `ExternalOpenArgs.ExtractedIsAcceptable` | src-tauri/src/external_open.rs:240-316 | for every argument list: at most ten URLs, each acceptable and never read as a flag |
| `ExternalOpenArgs.ExtractedUrlIsAcceptable` | src-tauri/src/external_open.rs:293-316 | the same for one URL |
| `ExternalOpenArgs.ExtractionIsIdempotent` | src-tauri/src/external_open.rs:69-199 | extracting the extracted list changes nothing, so the double extraction of the pipeline is harmless |
| `ExternalOpenArgs.KeyFoldsSchemeCaseOnly` | src-tauri/src/external_open.rs:337-348 | two accepted URLs share a key exactly when they have the same scheme up to case and the same text from the colon on |
| `ExternalOpenArgs.SchemeIsAllowedIff` | src-tauri/src/external_open.rs:318-328 | a scheme is allowed exactly when the text begins with `ssh:`, `telnet:` or `niceterm:` in any case |
| `ExternalOpenArgs.SanitizesIff` | src-tauri/src/external_open.rs:293-316 | an argument sanitises exactly when, trimmed, it has at most 4096 bytes and one of the three schemes, and then to its trimmed text |
| `ExternalOpenArgs.AtMostTen` | src-tauri/src/external_open.rs:267-281 | ten URLs or more: the first ten; fewer: all of them, and at most the local request after them |
| `ExternalOpenArgs.CwdAssignmentIsRead` | src-tauri/src/external_open.rs:262-265 | `--cwd=` followed by a path names that path, the empty one included |
| `ExternalOpenArgs.LocalAlone` | src-tauri/src/external_open.rs:275-291 | a lone `--local` yields exactly `niceterm://connect/local` |
| `ExternalOpenArgs.LocalWithCwd` | src-tauri/src/external_open.rs:246-291 | `--local --cwd` and a path yield exactly `niceterm://connect/local?cwd=` and the encoded path, or nothing if that is longer than 4096 bytes |
| `ExternalOpenArgs.LastCwdWins` | src-tauri/src/external_open.rs:247-265 | a later `--cwd` in either form replaces an earlier one |
| `Deduplication.StampsAreAccepted` | src-tauri/src/external_open.rs:178-191 | every time stamp in the map is that of an accepted check of that key |
| `Deduplication.AcceptedStaysStamped` | src-tauri/src/external_open.rs:183-189 | an accepted check keeps its stamp as long as every check since lies in its window |
| `Deduplication.PrunedMapDecidesLikeHistory` | src-tauri/src/external_open.rs:178-191 | at orderly times the pruned map rejects exactly when the same key was accepted at most 500 ms ago |
| `Deduplication.AgreesIffOrderly` | src-tauri/src/external_open.rs:178-191 | map and history agree for all keys at given times if and only if the times are orderly: none pushes an earlier one out of the window that a later one brings back in |
| `Deduplication.DisorderlyDisagrees` | src-tauri/src/external_open.rs:183-189 | at times that are not orderly, two keys are enough to make them disagree |
| `Deduplication.ForwardClockAgrees` | src-tauri/src/external_open.rs:178-191 | with times that never go back they always agree |
| `Deduplication.AcceptedCopiesAreFarApart` | src-tauri/src/external_open.rs:103-118 | two accepted copies are more than 500 ms apart, however many rejected repeats lie between them |
| `Deduplication.BackwardClockForgets` | src-tauri/src/external_open.rs:183-183 | three checks of overlapping calls on which map and history disagree |
| `Deduplication.BatchAdmitsFreshKeys` | src-tauri/src/external_open.rs:72-118 | what a batch admits had no stamp inside the window |
| `Deduplication.BatchAdmitsEachKeyOnce` | src-tauri/src/external_open.rs:72-118 | no batch admits one key twice |
| `Deduplication.EqualKeysAreFarApart` | src-tauri/src/external_open.rs:62-147 | over any sequence of batches at orderly times, two admitted URLs with one key come from calls more than 500 ms apart |
| `Deduplication.SeenSoFar` | src-tauri/src/external_open.rs:178-191 | within one batch, a key counts as seen exactly when the map held it inside the window or an earlier URL of the batch has it |
| `Deduplication.BatchAdmitsExactlyFresh` | src-tauri/src/external_open.rs:72-118 | a batch admits, in order, exactly the first URL of every key that was not seen in the window: nothing fresh is dropped |
| `Deduplication.LetsThroughIff` | src-tauri/src/external_open.rs:62-147 | over any sequence of batches at orderly times, a batch lets a key through if and only if one of its URLs has it and no batch at most 500 ms earlier let it through |
| `ExternalOpenBackend.ExternalOpenState.IsDuplicate` | src-tauri/src/external_open.rs:178-191 | prunes, then reports a remembered key or stamps a new one |
| `ExternalOpenBackend.ExternalOpenState.EnqueueBatch` | src-tauri/src/external_open.rs:62-147 | appends one request per admitted URL, in order, with fresh ids and a time stamp of its own, and counts them |
| `ExternalOpenBackend.ExternalOpenState.EnqueueUrls` | src-tauri/src/external_open.rs:72-144 | the loop of the batch over any rule for keys |
| `ExternalOpenBackend.ExternalOpenState.ClaimForWindow` | src-tauri/src/external_open.rs:149-176 | returns the window's requests in order and keeps all others in order |
| `ExternalOpenBackend.ClaimPartitions` | src-tauri/src/external_open.rs:149-176 | a claim leaves nothing for its window, does not touch other windows' requests, and loses or copies none |
| `ExternalOpenBackend.ForWindowAppends` | src-tauri/src/external_open.rs:141-155 | what a window can claim grows only at the end |
| `ExternalOpenBackend.ForOthersAppends` | src-tauri/src/external_open.rs:149-176 | what a claim leaves grows only at the end too |
| `ExternalOpenBackend.ClaimIsExact` | src-tauri/src/external_open.rs:154-175 | a request is claimed, as often as it is pending, exactly when its target is the window, and left exactly when it is not |
| `ExternalOpenBackend.OneMoreRequest` | src-tauri/src/external_open.rs:141-175 | one more request goes last into what its target can claim, and into nothing else |
| `ExternalOpenBackend.SchemeTestPasses` | src-tauri/src/external_open.rs:73-88 | the scheme test of the batch never fails on extracted URLs |
| `ExternalOpenDelivery.RunKeeps` | src/hooks/useExternalOpenRequests.ts:38-133 | the invariant of every window holds in every reachable state |
| `ExternalOpenDelivery.DeliveredInOrderExactlyOnce` | src/hooks/useExternalOpenRequests.ts:38-99 | handed over, then queued, then claimed, then pending is exactly what was accepted for the window, in order; at most one handler and one claim are under way |
| `ExternalOpenDelivery.NoLostWakeUp` | src/hooks/useExternalOpenRequests.ts:70-133 | while requests wait for a ready, listening window, an emit or event is outstanding, an undrained claim is in flight, or the claim-again flag is set |
| `ExternalOpenDelivery.AtRestEverythingWasHandedOver` | src/hooks/useExternalOpenRequests.ts:70-133 | with nothing in flight, a ready, listening window has been handed every accepted request |
| `ExternalOpenProgress.ClaimsOnlyWhenReady` | src/hooks/useExternalOpenRequests.ts:70-79 | on every run, a step after which a window has more claims in flight, or a claim not yet executed where there was none, leaves that window ready |
| `ExternalOpenProgress.NeverReadyNeverServed` | src/hooks/useExternalOpenRequests.ts:70-79 | a window that was not ready in any state so far has claimed nothing, queued nothing and handed nothing over: all that was accepted for it is pending, in order |
| `ExternalOpenProgress.FrontFollowsItsSteps` | src/hooks/useExternalOpenRequests.ts:30-133 | readiness and listener follow the steps, and becoming ready, installing the listener and hearing an event each make a ready window claim or claim again |
| `ExternalOpenProgress.WorkGetsLess` | src/hooks/useExternalOpenRequests.ts:43-98 | each step of what is under way for a window lowers a bound on the steps left |
| `ExternalOpenProgress.WorkEnds` | src/hooks/useExternalOpenRequests.ts:43-98 | however these steps are ordered, there are at most as many as that bound |
| `ExternalOpenProgress.EverythingIsHandedOver` | src/hooks/useExternalOpenRequests.ts:38-133 | once a ready window listens, what is under way ends in bounded time, and when nothing is left every accepted request has been handed over, in order |
| `ExternalOpenDelivery.ExternalOpenRequestsHook.Run` | src/hooks/useExternalOpenRequests.ts:42-65 | the drain loop up to its next await: start the next handler or end the loop |
| `ExternalOpenDelivery.ExternalOpenRequestsHook.Process` | src/hooks/useExternalOpenRequests.ts:38-68 | starts the loop unless it is running |
| `ExternalOpenDelivery.ExternalOpenRequestsHook.Claim` | src/hooks/useExternalOpenRequests.ts:70-79 | claims when ready, or sets the claim-again flag while a claim is in flight |
| `ExternalOpenDelivery.ExternalOpenRequestsHook.OnClaimResolved` | src/hooks/useExternalOpenRequests.ts:79-98 | queues what was claimed, processes it, clears the flag and claims again if asked to |
| `ExternalOpenDelivery.ExternalOpenRequestsHook.OnHandlerSettled` | src/hooks/useExternalOpenRequests.ts:43-64 | the loop goes on after a handler resolves or rejects |
| `ExternalOpenDelivery.ExternalOpenRequestsHook.SetReady` | src/hooks/useExternalOpenRequests.ts:30-133 | the ready ref follows, and becoming ready claims |
| `ActionLinkSelection.ByPriorityIsDescending` | src/lib/actionLinksAddon.ts:773-773 | the order of matchers is a permutation of them by descending priority |
| `ActionLinkSelection.ByPriorityIsStable` | src/lib/actionLinksAddon.ts:773-773 | matchers of equal priority keep their order |
| `ActionLinkSelection.ResolvedHolds` | src/lib/actionLinksAddon.ts:208-224 | the resolved actions are exactly the definitions that are enabled and build a command, as often as given |
| `ActionLinkSelection.ResolvesIffHasAction` | src/lib/actionLinksAddon.ts:208-224 | a match resolves to some action exactly when some definition is enabled and builds a command |
| `ActionLinkSelection.ScanOrderHolds` | src/lib/actionLinksAddon.ts:775-779 | a match is looked at exactly when a matcher whose prefilter lets it run reports it |
| `ActionLinkSelection.ComputeActionLinks` | src/lib/actionLinksAddon.ts:770-820 | the nested loops give the matches that claim an interval and have an action, in scan order |
| `ActionLinkSelection.ClaimMatches` | src/lib/actionLinksAddon.ts:778-816 | the inner loop over one matcher's matches continues the claims and links of all before |
| `ActionLinkSelection.CoveredTestDecidesClaims` | src/lib/actionLinksAddon.ts:780-782 | the test against the covered list decides whether any earlier claim overlaps |
| `ActionLinkSelection.LinksArePairwiseDisjoint` | src/lib/actionLinksAddon.ts:770-820 | of any two links one ends before the other starts |
| `ActionLinkSelection.LeftOutForAReason` | src/lib/actionLinksAddon.ts:775-801 | a match is left out exactly when it has no action or overlaps an earlier claim, and that claim has equal or higher priority |
| `ActionLinkSelection.BuildStringToCellMap` | src/lib/actionLinksAddon.ts:226-258 | the loop over cells gives one column per UTF-16 unit of the cells it needs and the end column |
| `ActionLinkSelection.PushUnits` | src/lib/actionLinksAddon.ts:244-250 | one entry per unit, one for an empty cell |
| `ActionLinkSelection.CellMapNonDecreasing` | src/lib/actionLinksAddon.ts:226-258 | columns never go back |
| `ActionLinkSelection.MapCoversRow` | src/lib/actionLinksAddon.ts:226-258 | where the text is the cells' text, the map has one entry per character and one for the end |
| `ActionLinkSelection.DisjointLinksCoverDisjointColumns` | src/lib/actionLinksAddon.ts:822-845 | links that share no character cover column ranges that share no column |
| `ActionLinkSelection.LinksCoverDisjointColumns` | src/lib/actionLinksAddon.ts:757-845 | the links of a line, mapped to any of its rows, never cover one column twice |
| `ActionLinkColumns.WalkVisitsTheRow` | src/lib/actionLinksAddon.ts:236-254 | the walk visits cells one after the other, each where the one before ends, up to the end of the row or the last column allowed |
| `ActionLinkColumns.CellInMap` | src/lib/actionLinksAddon.ts:244-256 | the units of a cell stand at its column, and the entry after its last unit is where it ends |
| `ActionLinkColumns.CellsAreFound` | src/lib/actionLinksAddon.ts:226-258 | where the text is the cells' text, the map is that of a prefix of the walk |
| `ActionLinkColumns.PlainRowColumns` | src/lib/actionLinksAddon.ts:833-844 | on a row of one-column characters a link covers exactly the columns of its characters |
| `ActionLinkColumns.CellColumns` | src/lib/actionLinksAddon.ts:833-844 | on a row of cells a column of a cell is covered if and only if the link contains the cell's last unit, so wide cells are covered whole |
| `ActionLinkColumns.NothingBeyondTheCells` | src/lib/actionLinksAddon.ts:833-844 | no column before the first or from the end of the last cell on is covered |
| `DecorationRuns.RefreshesAreRightIffUndisturbed` | src/lib/actionLinksAddon.ts:547-709 | on every run, all refreshes leave exactly the decorations of a full rescan, each on the row its key names, if and only if no refresh finds a decoration it keeps moved, or a row it remembers as bare in need of one |
| `DecorationRuns.PlainOutputIsRight` | src/lib/actionLinksAddon.ts:547-709 | for output that moves no row except by trimming, in any run with scrolls, resizes, matcher changes and suspensions, every refresh is right |
| `DecorationShown.WindowIsViewportAndOverscan` | src/lib/actionLinksAddon.ts:561-570 | a row is scanned if and only if it exists and lies from 120 rows above the viewport to 120 rows below it |
| `DecorationShown.WantedIffLinkAt` | src/lib/actionLinksAddon.ts:573-611 | a rescan wants exactly the positive-width spans of scanned rows whose logical line has at most 16384 characters |
| `DecorationShown.RightIffShows` | src/lib/actionLinksAddon.ts:547-644 | the index is right exactly when every such span is drawn on its row and nothing else is drawn |
| `DecorationShown.LinksAreShownIffUndisturbed` | src/lib/actionLinksAddon.ts:547-709 | on every run, all refreshes show every link of the viewport and its surroundings and nothing else if and only if no refresh finds the rows it builds on disturbed |
| `DecorationShown.ViewportLinksAreDrawn` | src/lib/actionLinksAddon.ts:573-610 | after a right refresh of an active addon, every positive-width span of a viewport row with at most 16384 characters in its logical line is drawn on that row |
| `DecorationShown.PlainOutputShowsLinks` | src/lib/actionLinksAddon.ts:547-709 | for output that moves no row except by trimming, every refresh of every run shows the links |
| `DecorationShown.OffShowsNothing` | src/lib/actionLinksAddon.ts:392-431 | suspended or without matchers, nothing is drawn at any moment of any run |
| `DecorationShown.PlainOutputRemembersScrollback` | src/lib/actionLinksAddon.ts:577-621 | with such output a refresh remembers exactly the scrollback rows of its window, each with exactly its links |
| `DecorationRuns.RefreshKeeps` | src/lib/actionLinksAddon.ts:547-644 | one refresh is right exactly when the condition holds, and then the index is a function of what happened since |
| `DecorationRuns.RefreshFrom` | src/lib/actionLinksAddon.ts:573-643 | the same for a refresh that builds on an earlier one |
| `DecorationRuns.ShiftKeeps` | src/lib/actionLinksAddon.ts:677-689 | moving rows step by step or at once comes to the same, disposal callbacks included |
| `DecorationRuns.MemoLostTogether` | src/lib/actionLinksAddon.ts:677-689 | the decorations of a memoised row are lost together, so a row is never half remembered |
| `DecorationRuns.InsertedRowsMisplace` | src/lib/actionLinksAddon.ts:653-654 | a decoration below inserted rows that is wanted before and after ends up on the wrong row |
| `DecorationRuns.InsertedLineDrawsRowTwice` | src/lib/actionLinksAddon.ts:653-654 | a run of three events after which one row carries two decorations and another none |
| `DecorationRuns.SentinelDrifts` | src/lib/actionLinksAddon.ts:496-512 | rows inserted at the top hide a later trim of as many rows |
| `DecorationLayer.ActionLinksAddon.OnDispose` | src/lib/actionLinksAddon.ts:677-689 | the disposal callback forgets the key, and a row left without keys is no longer memoised |
| `DecorationLayer.ActionLinksAddon.Dispose` | src/lib/actionLinksAddon.ts:629-636 | disposing one decoration keeps cache and live decorations in one-to-one correspondence |
| `DecorationLayer.ActionLinksAddon.DisposeAll` | src/lib/actionLinksAddon.ts:624-636 | disposing one after the other has the effect of disposing the set, whatever the order |
| `DecorationLayer.ActionLinksAddon.ClearAll` | src/lib/actionLinksAddon.ts:695-709 | afterwards nothing is remembered and nothing is alive |
| `DecorationLayer.ActionLinksAddon.EnsureDecoration` | src/lib/actionLinksAddon.ts:646-693 | a span of positive width is decorated: on its row if it is new, where its marker stands if it is cached |
| `DecorationLayer.ActionLinksAddon.DecorateRow` | src/lib/actionLinksAddon.ts:600-610 | one decoration per span of the row, keys in span order |
| `DecorationLayer.ActionLinksAddon.Memoise` | src/lib/actionLinksAddon.ts:614-621 | a settled row is remembered with its keys |
| `DecorationLayer.ActionLinksAddon.ScanRow` | src/lib/actionLinksAddon.ts:573-622 | a memoised row contributes what it remembers, any other what a scan finds |
| `DecorationLayer.ActionLinksAddon.ScanRows` | src/lib/actionLinksAddon.ts:566-622 | the loop over the window collects exactly the required keys |
| `DecorationLayer.ActionLinksAddon.ForgetOutside` | src/lib/actionLinksAddon.ts:638-643 | memoised rows lie in the window |
| `DecorationLayer.ActionLinksAddon.RefreshWindow` | src/lib/actionLinksAddon.ts:561-644 | scan, evict and forget together keep required decorations where they stand, add the missing ones on their rows and dispose all others |
| `DecorationLayer.ActionLinksAddon.Refresh` | src/lib/actionLinksAddon.ts:547-644 | the whole refresh, with clearing on the alternate screen and after a trim, and the sentinel |
| `DecorationLayer.ActionLinksAddon.OnRowsMoved` | src/lib/actionLinksAddon.ts:507-511 | when rows move, decorations and sentinel follow their rows or are disposed with them, and a lost sentinel reports a trim |
| `DecorationLayer.ActionLinksAddon.OnResize` | src/lib/actionLinksAddon.ts:369-372 | a resize clears everything |
| `DecorationLayer.ActionLinksAddon.SetMatchers` | src/lib/actionLinksAddon.ts:392-413 | a change of matchers clears everything |
| `DecorationLayer.ActionLinksAddon.SetSuspended` | src/lib/actionLinksAddon.ts:419-431 | suspending clears everything, resuming waits for a refresh |
| `DecorationLayer.ActionLinksAddon.Handle` | src/lib/actionLinksAddon.ts:361-431 | every event takes the caches to the index the run prescribes |
| `DecorationLayer.Replay` | src/lib/actionLinksAddon.ts:547-709 | a new addon that goes through the events of a run arrives at the index of that run |
| `DecorationLayer.EvictionEnds` | src/lib/actionLinksAddon.ts:624-643 | eviction and its callbacks leave the memo of the window as it is |
| `TransferQueue.CapsAreBetweenOneAndNine` | src/context/TransferContext.tsx:157-165 | whatever number the settings hold, each direction has between one and nine slots, and copying at most as many as any other |
| `TransferCalls.CapsFollowSettings` | src/context/TransferContext.tsx:157-471 | each direction has one slot fewer than its threads, between one and nine, copying by the smaller setting; a setting that is no number gives one slot |
| `TransferCalls.CountIsCardinality` | src/context/TransferContext.tsx:472-482 | the slots taken in a direction are as many as the positions of transferring transfers that the queue runs |
| `TransferQueue.PassIsWorkConserving` | src/context/TransferContext.tsx:478-558 | after a pass, a direction with a dispatchable transfer left has all its slots taken |
| `TransferQueue.NobodyIsOvertaken` | src/context/TransferContext.tsx:484-558 | a transfer that is passed over is not overtaken by a later one of its direction |
| `TransferQueue.PassStaysWithinCaps` | src/context/TransferContext.tsx:492-558 | a pass only fills free slots |
| `TransferQueue.PassKeepsTidy` | src/context/TransferContext.tsx:492-558 | every offer of a pass keeps the books in order |
| `TransferQueue.StepKeepsTidy` | src/context/TransferContext.tsx:246-931 | every user action, report, rejection and clean-up keeps the books in order |
| `TransferQueue.BooksBalance` | src/context/TransferContext.tsx:224-931 | in every reachable state request map and parked set are disjoint and name transfers of the map, and start calls for an id never exceed its enqueues and retries |
| `TransferCalls.PassServes` | src/context/TransferContext.tsx:484-606 | a pass either leaves a transfer, its request and its calls as they were, and then its direction is full if it could be served, or makes it transfer with exactly one start call, or one resume call if it was parked |
| `TransferCalls.PassMakesTheCalls` | src/context/TransferContext.tsx:498-606 | in every pass, start calls of an id grow by exactly the requests that leave the map, resume calls by exactly the parkings that end, and what left is transferring and running |
| `TransferCalls.StepAccounts` | src/context/TransferContext.tsx:224-931 | the same balance for every step, with requests and parkings that a step withdraws |
| `TransferCalls.EveryRequestIsAccountedFor` | src/context/TransferContext.tsx:224-931 | over every run: enqueues and retries of an id equal its start calls, its waiting request and the requests withdrawn; its parkings equal its resume calls, its waiting parking and those withdrawn |
| `TransferCalls.UndisturbedRequestsAreStarted` | src/context/TransferContext.tsx:458-632 | for an id that nobody cancels, removes, clears, finishes or retries, start calls and waiting request together equal the enqueues |
| `TransferCalls.NoStartUnasked` | src/context/TransferContext.tsx:498-606 | without a request no start call is made until the next enqueue or retry |
| `TransferCalls.AskedForIsServable` | src/context/TransferContext.tsx:842-931 | an enqueue or retry leaves the transfer queued and requested |
| `TransferCalls.ResumedIsServable` | src/context/TransferContext.tsx:739-756 | resuming a started, paused transfer parks it, queued |
| `TransferCalls.CancelledIsGone` | src/context/TransferContext.tsx:765-786 | cancelling a waiting request removes it, and its transfer is cancelled unless it had completed or failed |
| `TransferCalls.EndingFreesTheSlot` | src/context/TransferContext.tsx:343-631 | whatever ends a transfer records that outcome, frees exactly its slot and leaves every other slot taken |
| `TransferCalls.PausingFreesTheSlot` | src/context/TransferContext.tsx:316-326 | a pause report frees exactly the slot of its transfer and keeps it resumable |
| `TransferCalls.OutcomesStand` | src/context/TransferContext.tsx:246-931 | on every run a finished transfer keeps its outcome until a report names it, it is retried or it is removed: no late cancel, rejection, pause, resume or pass changes it |
| `TransferCalls.PauseAndResumeRestore` | src/context/TransferContext.tsx:685-756 | pausing a waiting transfer and resuming it restores the whole queue state |
| `TransferSlots.GainsSlotIffPromotes` | src/context/TransferContext.tsx:246-379 | outside a pass a transfer gains a slot exactly when a report meets a guard on its status, queue state and direction |
| `TransferSlots.EditStaysWithinCapsIffItFits` | src/context/TransferContext.tsx:252-379 | one report or action keeps the slots within bounds exactly when it gives away no slot of a full direction |
| `TransferSlots.StepStaysWithinCapsIffItFits` | src/context/TransferContext.tsx:246-931 | the same for every step |
| `TransferSlots.SlotsHoldIffStepsFit` | src/context/TransferContext.tsx:246-931 | every state of a run is within the slots if and only if every step fits |
| `TransferSlots.BehavingBackendNeverPromotes` | src/context/TransferContext.tsx:252-343 | a backend that behaves gives away no slot |
| `TransferSlots.SlotsAreNeverExceeded` | src/context/TransferContext.tsx:458-763 | with fixed settings and a behaving backend, no reachable state runs more transfers of a direction than it has slots, resumes through the parked set included |
| `TransferSlots.StepKeepsWaitingIff` | src/context/TransferContext.tsx:246-931 | a step leaves every request servable exactly when it does not write another status over a transfer whose request waits |
| `TransferSlots.RequestsWaitIffNoneStranded` | src/context/TransferContext.tsx:246-931 | the same over every run |
| `TransferOverruns.StrayProgressOverfills` | src/context/TransferContext.tsx:300-315 | a run from the empty queue on which a late progress report for a paused transfer makes two uploads run with one slot |
| `TransferOverruns.RedirectedStartOverfills` | src/context/TransferContext.tsx:263-291 | a run on which a start reported under another direction does so, although no report names a paused or queued transfer |
| `TransferOverruns.StaleStartOverfills` | src/context/TransferContext.tsx:284-286 | a run on which a retry races a rejected start: its request is stranded, and a late start report takes a slot that was given away |
| `TransferQueue.TransferProvider.CountRunning` | src/context/TransferContext.tsx:472-482 | the counters are the numbers of running transfers per direction |
| `TransferQueue.TransferProvider.MarkStarted` | src/context/TransferContext.tsx:501-514 | only a transfer that is still queued starts |
| `TransferQueue.TransferProvider.OfferSlot` | src/context/TransferContext.tsx:492-558 | the body of the dispatch loop, with its hand-kept counter |
| `TransferQueue.TransferProvider.RunSchedulingPass` | src/context/TransferContext.tsx:458-558 | the effect with hand-kept counters equals the rule that recounts before every offer |
| `TransferQueue.TransferProvider.Pause` | src/context/TransferContext.tsx:685-722 | pausing a waiting request or a parked transfer is local, anything else is left to the backend |
| `TransferQueue.TransferProvider.Resume` | src/context/TransferContext.tsx:724-763 | resuming re-queues: a request stays one, a started transfer is parked |
| `TransferQueue.TransferProvider.Cancel` | src/context/TransferContext.tsx:765-814 | the synchronous part of cancelling |
| `TransferQueue.TransferProvider.Retry` | src/context/TransferContext.tsx:842-886 | a retried transfer leaves the parked set, gets a request and is queued again |
| `TransferQueue.TransferProvider.EnqueueTransfers` | src/context/TransferContext.tsx:888-931 | a batch is queued in order, one request each |
| `RemotePolling.StartFetchKeeps` | src/hooks/useRemoteStats.ts:47-59 | starting a call keeps at most one call of the current generation |
| `RemotePolling.RespondKeeps` | src/hooks/useRemoteStats.ts:59-107 | a response, late or not, keeps the stored data current and the failure count right |
| `RemotePolling.RespondFrame` | src/hooks/useRemoteStats.ts:59-107 | a response touches neither the requested session nor the generation nor any other call |
| `RemotePolling.FlushKeeps` | src/hooks/useRemoteStats.ts:117-165 | cleanup and effect start a new generation |
| `RemotePolling.RenderKeeps` | src/hooks/useRemoteStats.ts:36-39 | a render changes the requested session before its effects run, and the invariant survives the gap |
| `RemotePolling.VisibleIsCurrent` | src/hooks/useRemoteStats.ts:167-176 | visible data belongs to the requested session and the current generation |
| `RemotePolling.ThreeFailuresHideEverything` | src/hooks/useRemoteStats.ts:89-96 | after three failures in a row nothing is visible |
| `RemotePolling.PollingRefs.Begin` | src/hooks/useRemoteStats.ts:47-59 | the fetch function up to its await |
| `RemotePolling.PollingRefs.Take` | src/hooks/useRemoteStats.ts:60-97 | what a current response does to state and failure count |
| `RemotePolling.PollingRefs.Finish` | src/hooks/useRemoteStats.ts:98-107 | the finally block |
| `RemotePolling.PollingRefs.OnResponse` | src/hooks/useRemoteStats.ts:59-107 | the fetch function from its await on |
| `RemotePolling.PollingRefs.Restart` | src/hooks/useRemoteStats.ts:117-147 | cleanup and effect on the shared refs, first fetch included |
| `RemoteGpuOverview.RunKeeps` | src/hooks/useRemoteGpuOverview.ts:39-165 | the invariant holds in every reachable state |
| `RemoteGpuOverview.VisibleDataIsCurrent` | src/hooks/useRemoteGpuOverview.ts:39-165 | whatever the order of switches (A to B to A included), polls, refreshes and late responses, visible data was fetched for the requested session under the current generation, and is gone after three failures in a row |
| `RemoteGpuOverview.OneCallOneTimer` | src/hooks/useRemoteGpuOverview.ts:45-163 | at most one call of the current generation and at most one timer, which is of the current generation |
| `RemoteGpuOverview.StaysClosed` | src/hooks/useRemoteGpuOverview.ts:69-121 | one step that does not reopen a session issues no automatic call for it |
| `RemoteGpuOverview.UnavailableStopsPolling` | src/hooks/useRemoteGpuOverview.ts:45-163 | once a session is unavailable, no automatic call is issued for it until the effect reruns or a manual refresh finds it available |
| `RemoteGpuShown.RunFollows` | src/hooks/useRemoteGpuOverview.ts:39-163 | the hook's refs, timers and continuations are a function of the restarts and of the answers that counted, in every reachable state |
| `RemoteGpuShown.OverviewIsLastGood` | src/hooks/useRemoteGpuOverview.ts:57-173 | at every moment the hook shows exactly the last success since the effect ran unless three failures in a row followed, reports an error exactly after a failure, and its spinner turns only for a manual call under way |
| `RemoteGpuShown.SuccessIsVisible` | src/hooks/useRemoteGpuOverview.ts:57-68 | on every run, a success whose call carries the requested session and the current generation is visible at once |
| `RemoteGpuShown.HarmlessStepsKeepTheData` | src/hooks/useRemoteGpuOverview.ts:47-101 | ticks, clicks, continuations, late answers and a first or second failure in a row leave the visible data as they were |
| `RemoteGpuShown.ThreeFailuresHide` | src/hooks/useRemoteGpuOverview.ts:80-91 | three failures in a row, counted in the history, leave nothing visible |
| `RemoteGpuShown.RequestedSessionIsPolled` | src/hooks/useRemoteGpuOverview.ts:124-163 | running the effect fetches and polls under a new generation; from then on the session is polled, unless its last success said there is no GPU or polling is about to start again |
| `RemoteGpuShown.AnswersStopOrKeepPolling` | src/hooks/useRemoteGpuOverview.ts:69-77 | a success without a GPU leaves no timer, one with a GPU leaves the timers as they were |
| `RemoteGpuShown.TicksAndClicksFetch` | src/hooks/useRemoteGpuOverview.ts:45-58 | a tick or a click makes its call exactly when it is for the requested session, none of the current generation is under way and, for a tick, the session is not known to be without a GPU |
| `RemoteGpuOverview.RemoteGpuOverviewHook.FetchIfDue` | src/hooks/useRemoteGpuOverview.ts:45-58 | the fetch function up to its await, with the test for unavailable sessions |
| `RemoteGpuOverview.RemoteGpuOverviewHook.OnResponse` | src/hooks/useRemoteGpuOverview.ts:58-101 | the fetch function from its await on |
| `RemoteGpuOverview.RemoteGpuOverviewHook.OnContinue` | src/hooks/useRemoteGpuOverview.ts:109-121 | polling starts again after a manual refresh that found the session available |
| `RemoteGpuOverview.RemoteGpuOverviewHook.RunEffects` | src/hooks/useRemoteGpuOverview.ts:124-163 | cleanup and effect of one commit |
| `RemoteStats.RunKeeps` | src/hooks/useRemoteStats.ts:41-167 | the invariant holds in every reachable state |
| `RemoteStats.VisibleStatsAreCurrent` | src/hooks/useRemoteStats.ts:41-167 | the same guarantee for the statistics hook |
| `RemoteStats.OneCallOneRetry` | src/hooks/useRemoteStats.ts:47-165 | at most one call, one poll timer and one warm-up timer of the current generation |
| `RemoteStatsShown.RunFollows` | src/hooks/useRemoteStats.ts:41-165 | the same correspondence between history and refs for the statistics hook |
| `RemoteStatsShown.StatsAreLastGood` | src/hooks/useRemoteStats.ts:58-175 | the statistics shown are exactly those of the last success since the effect ran, and so on for error and spinner |
| `RemoteStatsShown.SuccessIsVisible` | src/hooks/useRemoteStats.ts:58-68 | a success of the requested session and the current generation is visible at once |
| `RemoteStatsShown.HarmlessStepsKeepTheData` | src/hooks/useRemoteStats.ts:49-107 | ticks, warm-up retries, clicks, late answers and a first or second failure in a row leave the visible statistics as they were |
| `RemoteStatsShown.ThreeFailuresHide` | src/hooks/useRemoteStats.ts:86-97 | three failures in a row leave nothing visible |
| `RemoteStatsShown.RequestedSessionIsPolled` | src/hooks/useRemoteStats.ts:117-165 | once the effects have run the requested session is polled and without one there is no timer; running them fetches under a new generation |
| `RemoteStatsShown.WarmingUpRetriesOnce` | src/hooks/useRemoteStats.ts:70-84 | a success marked as warming up schedules one retry unless the one before was marked too, and any other success leaves none scheduled |
| `RemoteStatsShown.TicksAndClicksFetch` | src/hooks/useRemoteStats.ts:47-58 | a tick, a warm-up retry or a click makes its call exactly when it is for the requested session and none of the current generation is under way |
| `RemoteStats.RemoteStatsHook.OnResponse` | src/hooks/useRemoteStats.ts:59-107 | the fetch function from its await on, warm-up retry included |
| `RemoteStats.RemoteStatsHook.OnWarmupTimer` | src/hooks/useRemoteStats.ts:77-81 | the warm-up timer clears its ref and fetches if still current |
| `RemoteStats.RemoteStatsHook.RunEffects` | src/hooks/useRemoteStats.ts:117-165 | cleanup and effect of one commit |
| `ChildWindowCommandQueue.Queue.Register` | src/lib/childWindowCommandQueue.ts:22-32 | a new registration starts loading with nothing pending; the same one again changes nothing |
| `ChildWindowCommandQueue.Queue.Dispatch` | src/lib/childWindowCommandQueue.ts:34-48 | sends at once, drops after a failure, or holds back |
| `ChildWindowCommandQueue.Queue.MarkReady` | src/lib/childWindowCommandQueue.ts:50-59 | releases everything pending, in order |
| `ChildWindowCommandQueue.Queue.MarkLoading` | src/lib/childWindowCommandQueue.ts:61-68 | refused for a stale token and after a failure |
| `ChildWindowCommandQueue.Queue.MarkFailed` | src/lib/childWindowCommandQueue.ts:70-77 | drops everything pending |
| `ChildWindowCommandQueue.RunKeeps` | src/lib/childWindowCommandQueue.ts:22-87 | the invariant holds in every reachable state |
| `ChildWindowCommandQueue.DeliveredInOrderOnce` | src/lib/childWindowCommandQueue.ts:22-87 | per window and command name, deliveries are an in-order subsequence of dispatches without duplicates, and ready or failed implies nothing pending |
| `ChildWindowCommandQueue.NothingIsLostWithoutFailure` | src/lib/childWindowCommandQueue.ts:22-87 | within one registration without failure, delivered followed by pending equals dispatched |
| `ChildWindowCommandQueue.StaleSignalsChangeNothing` | src/lib/childWindowCommandQueue.ts:50-77 | a signal with another registration's token changes and releases nothing |
| `ChildWindowReadiness.RunFollowsHistory` | src/lib/childWindowCommandQueue.ts:22-87 | entry and status of a window are what the history of registrations and signals says |
| `ChildWindowReadiness.CommandsWaitForReadiness` | src/lib/childWindowCommandQueue.ts:34-77 | on every run, a command of the registered name is delivered at once if and only if the page signalled after the registration that it listens and has neither gone back to loading nor failed since; otherwise nothing is delivered, and unless the window failed the command is the last pending one |
| `ChildWindowReadiness.OtherCommandsGoThrough` | src/lib/childWindowCommandQueue.ts:39-43 | commands of another name or to an unregistered window are delivered at once |
| `ChildWindowReadiness.ReadinessReleasesAll` | src/lib/childWindowCommandQueue.ts:50-59 | a signal with the token and name of the registration delivers all that was held back, in order, and leaves nothing pending |
| `ChildWindowReadiness.OnlyDispatchAndReadinessDeliver` | src/lib/childWindowCommandQueue.ts:22-87 | no other step delivers anything |
| `ActivityBar.KeepUnique` | src/hooks/useActivityBarController.tsx:63-70 | the deduplicating loop with a shared seen set |
| `ActivityBar.NormalizeActivityBarState` | src/hooks/useActivityBarController.tsx:50-189 | the repair returns nothing or a patch with exactly the changed fields |
| `ActivityBar.DeduplicatedIsDistinct` | src/hooks/useActivityBarController.tsx:63-70 | every listed id but the retired one survives, exactly once across the four zones |
| `ActivityBar.RestoredByAddsMissing` | src/hooks/useActivityBarController.tsx:72-120 | the nine insertions add missing ids only, each once |
| `ActivityBar.RulesRestoreTheRequired` | src/hooks/useActivityBarController.tsx:72-120 | the insertion rules cover exactly the required ids |
| `ActivityBarPlaces.FirstZoneWins` | src/hooks/useActivityBarController.tsx:63-70 | of several copies of an item the one in the first zone survives: left top, left bottom, right top, right bottom |
| `ActivityBarPlaces.MissingItemsReturn` | src/hooks/useActivityBarController.tsx:72-120 | where each of the nine required items comes back: its zone, and right after or before its named neighbour if that is there |
| `ActivityBarPlaces.PlacedWithoutAnchor` | src/hooks/useActivityBarController.tsx:26-99 | without that neighbour it comes first or last of the zone; the serial sender falls back on recording, then on the lock, then on the end |
| `ActivityBarPlaces.RepairKeepsOpenAndHidden` | src/hooks/useActivityBarController.tsx:122-141 | exactly the open panels still available on their side stay open, and exactly the hidden items still listed stay hidden |
| `ActivityBarPlaces.RepairKeepsActive` | src/hooks/useActivityBarController.tsx:142-151 | an active panel stays active exactly when it is available on its side; the retired file-transfer panel hands over to the file explorer |
| `ActivityBar.PatchIsRepair` | src/hooks/useActivityBarController.tsx:171-188 | applying the partial patch gives the whole repaired configuration |
| `ActivityBar.RepairIsNormal` | src/hooks/useActivityBarController.tsx:50-189 | the repair of any configuration is in normal form: no id twice across the zones, all required ids listed, hidden ids listed, open and active panels on their own side |
| `ActivityBar.NormalIsKept` | src/hooks/useActivityBarController.tsx:50-189 | a configuration in normal form is left as it is |
| `ActivityBar.NothingToRepairIffNormal` | src/hooks/useActivityBarController.tsx:171-180 | the repair returns null exactly for configurations in normal form |
| `ActivityBar.RepairIsOneStepFixpoint` | src/hooks/useActivityBarController.tsx:221-226 | after one patch the next call returns null, so the effect ends |
| `ActivityBar.SelectKeepsNormalIff` | src/hooks/useActivityBarController.tsx:274-322 | in single and multi-open mode a click keeps the normal form exactly when the item opens no panel, was not rendered on a side, or is available and still on the side it was rendered on |
| `ActivityBar.PanelSelectKeepsNormalIff` | src/lib/appWorkspace.ts:359-397 | opening, revealing or hiding a panel keeps the normal form exactly when it is an available panel of that side |
| `ActivityBarPlaces.ClickTogglesPanel` | src/hooks/useActivityBarController.tsx:298-312 | in single mode a click opens a panel on its side or closes the active one, and changes nothing else |
| `ActivityBarPlaces.ClicksPinRevealAndHide` | src/lib/appWorkspace.ts:359-397 | in multi-open mode a first click pins and reveals a panel, later ones hide and reveal it, and it stays pinned |
| `ActivityBarPlaces.ClicksPinRevealAndHideRight` | src/lib/appWorkspace.ts:359-397 | the same on the right side |
| `ActivityBarPlaces.BarsExcludeEachOther` | src/hooks/useActivityBarController.tsx:284-297 | the quick-command bar and the serial sender are never both shown, and a second click closes what the first opened |
| `ActivityBarPlaces.HideAndShowAreExact` | src/lib/appWorkspace.ts:242-265 | hiding, showing and toggling change whether this item is hidden, and nothing else |
| `ActivityBarPlaces.MoveIsExact` | src/hooks/useActivityBarController.tsx:337-363 | a moved item is last in its target zone, in no other zone, and neither open nor active on the other side |
| `ActivityBarPlaces.SwitchesDecideAvailability` | src/lib/appWorkspace.ts:90-175 | an item is available exactly unless it is one of six whose own switch is off |
| `ActivityBar.HideKeepsNormal` | src/lib/appWorkspace.ts:242-248 | hiding a listed item keeps the normal form |
| `ActivityBar.ShowKeepsNormal` | src/lib/appWorkspace.ts:250-256 | showing an item keeps the normal form |
| `ActivityBar.ToggleKeepsNormal` | src/lib/appWorkspace.ts:258-265 | toggling keeps the normal form, and toggling twice restores the set of hidden items |
| `ActivityBar.MoveKeepsNormal` | src/hooks/useActivityBarController.tsx:337-370 | moving a listed item to any zone keeps the normal form |
| `ActivityBar.ResetIsNormal` | src/hooks/useActivityBarController.tsx:406-418 | a reset gives the default layout and the normal form |
| `ActivityBar.DefaultLayoutIsNormal` | src/lib/appWorkspace.ts:231-240 | the default layout is in normal form |
| `ActivityBarReorder.MergeVisibleReorder` | src/lib/appWorkspace.ts:291-303 | the two passes refill the slots and append what found none |
| `ActivityBarReorder.FillSlots` | src/lib/appWorkspace.ts:296-301 | the pass that shifts requested ids off a copy |
| `ActivityBarReorder.KeepUnplaced` | src/lib/appWorkspace.ts:302-302 | the pass over what is left |
| `ActivityBarReorder.MergedIsPermutation` | src/lib/appWorkspace.ts:291-303 | dropping visible ids of a zone, each once, permutes the zone |
| `ActivityBarReorder.MergedAt` | src/lib/appWorkspace.ts:298-301 | ids outside the requested order, hidden ones among them, keep their index; the others follow the requested order |
| `ActivityBarReorder.ReorderKeepsNormal` | src/hooks/useActivityBarController.tsx:324-335 | a reorder keeps the normal form |
| `AssetGroups.BuildGroupIndex` | src/lib/assetGroups.ts:13-20 | the loop builds the index of first occurrences |
| `AssetGroups.IndexHoldsFirst` | src/lib/assetGroups.ts:13-20 | an id is indexed exactly when some group carries it, and leads to the first such group |
| `AssetGroups.BuildGroupPath` | src/lib/assetGroups.ts:22-46 | the root, then the indexed groups from the topmost one met down to the selected one; the walk ends on every input |
| `AssetGroups.ReversedAt` | src/lib/assetGroups.ts:44-44 | reversing turns the order of the segments round, index by index |
| `AssetGroups.WalkClimbs` | src/lib/assetGroups.ts:33-42 | each group of the walk is the parent of the one before, and it ends where the parents end, dangle or repeat |
| `AssetGroups.BreadcrumbReadsDown` | src/lib/assetGroups.ts:22-46 | a breadcrumb is the root and then, from the topmost group down to the selected one, each group after its parent |
| `AssetGroups.PathHasNoRepeats` | src/lib/assetGroups.ts:32-42 | no id occurs twice on a path, whatever cycles there are |
| `AssetGroups.PathHoldsAncestors` | src/lib/assetGroups.ts:32-42 | a path holds exactly the group and its ancestors |
| `AssetGroups.BuildChildren` | src/lib/assetGroups.ts:58-65 | the child lists hold exactly the indexed groups with an indexed parent |
| `AssetGroups.CollectDescendantGroupIds` | src/lib/assetGroups.ts:48-76 | the breadth-first search ends on every input and finds exactly the groups under the selected one |
| `AssetGroups.DescendantIffOnPath` | src/lib/assetGroups.ts:22-76 | an indexed group is a descendant of another exactly when that one lies on its path |
| `AssetGroups.DescendantsNest` | src/lib/assetGroups.ts:48-76 | descendants of a descendant are descendants; groups of one parent cycle have the same ones |
| `AssetGroups.GetConnectionsForAssetGroup` | src/lib/assetGroups.ts:78-91 | all connections without a selection, otherwise, in order, exactly those whose group has the selected one on its path |
| `AssetGroups.InGroupsAppends` | src/lib/assetGroups.ts:88-90 | the selection keeps the order of the connections |
| `ShellScanners.ReadIsInjective` | src/lib/commandSuggestionSuppression.ts:25-101 | telling characters apart loses nothing |
| `ShellScanners.SplitCommandSegments` | src/lib/commandSuggestionSuppression.ts:19-64 | the loop gives the trimmed pieces between unprotected separators, and holds the shared lexical state before every character |
| `ShellScanners.SplitAndTrim` | src/lib/commandSuggestionSuppression.ts:25-63 | the same for any trimming function |
| `ShellScanners.TokenizeShellLike` | src/lib/commandSuggestionSuppression.ts:66-112 | the loop gives the words between unprotected white space, and holds the shared lexical state before every character |
| `ShellScanners.WholeScanIsPieces` | src/lib/commandSuggestionSuppression.ts:19-112 | one scan that treats unprotected separators as white space gives the tokens of the untrimmed pieces |
| `ShellScanners.TrimmedPieceTokens` | src/lib/commandSuggestionSuppression.ts:50-60 | trimming a piece keeps its tokens, or loses letters |
| `ShellScanners.WordsConserveLetters` | src/lib/commandSuggestionSuppression.ts:72-109 | no letter is lost or invented in cutting words |
| `ShellScanners.ScansAgreeIffTrimsFreely` | src/lib/commandSuggestionSuppression.ts:19-112 | tokenising the segments agrees with one scan of the line exactly when no piece ends in protected white space |
| `ShellScanners.ScansAgree` | src/lib/commandSuggestionSuppression.ts:19-112 | with closed quotes and no backslash-escaped white space they always agree |
| `ShellScanners.EscapedTrailingBlankIsLost` | src/lib/commandSuggestionSuppression.ts:50-60 | a line on which they differ |
| `ShellScanners.ScannersRunInLockStep` | src/lib/commandSuggestionSuppression.ts:25-101 | at every character of a segment the tokenizer holds the state the splitter held there |
| `ShellLines.SpecialCharacters` | src/lib/commandSuggestionSuppression.ts:32-104 | exactly `|`, `;` and `&` separate, and exactly the backslash, the two marks and white space are special beside them |
| `ShellLines.SeparatorsSplit` | src/lib/commandSuggestionSuppression.ts:50-63 | two plain stretches around `|`, `;` or `&` are two segments |
| `ShellLines.BlanksSplit` | src/lib/commandSuggestionSuppression.ts:96-109 | two plain stretches around white space are two words |
| `ShellLines.QuotesMakeOneWord` | src/lib/commandSuggestionSuppression.ts:86-104 | a quoted stretch is one word without its marks, whatever blanks and separators it holds |
| `ShellLines.QuotesKeepSegment` | src/lib/commandSuggestionSuppression.ts:38-63 | a quoted stretch is never cut at a separator and keeps its marks |
| `ShellLines.BackslashInsideDoubleMarks` | src/lib/commandSuggestionSuppression.ts:75-94 | inside double marks a backslash takes the next character into the word, even a mark, and disappears |
| `ShellLines.BackslashKeepsWord` | src/lib/commandSuggestionSuppression.ts:75-84 | outside marks it does so too, blanks and separators included |
| `VirtualList.ItemOffsets` | src/hooks/useVirtualList.ts:21-30 | the loop gives all prefix sums of the heights |
| `VirtualList.ItemsTakeTheirHeight` | src/hooks/useVirtualList.ts:21-30 | consecutive offsets differ by the item's own height, or by the common one |
| `VirtualList.CommonHeightOffsets` | src/hooks/useVirtualList.ts:21-30 | with a common height item `i` starts at `i` times that height |
| `VirtualList.OffsetsAreSorted` | src/hooks/useVirtualList.ts:21-30 | with non-negative heights the offsets are sorted |
| `VirtualList.LowerBound` | src/hooks/useVirtualList.ts:89-101 | exactly the values below the index are smaller than the target |
| `VirtualList.UpperBound` | src/hooks/useVirtualList.ts:103-115 | exactly the values below the index are at most the target |
| `VirtualList.Range` | src/hooks/useVirtualList.ts:64-71 | the index range holds exactly the wanted items |
| `VirtualList.Slice` | src/hooks/useVirtualList.ts:72-74 | the items of the range with their indices |
| `VirtualList.ComputeWindow` | src/hooks/useVirtualList.ts:55-81 | exactly the wanted items are rendered, the paddings are the heights before the start and after the end, and with a viewport of some height the start is not after the end |
| `VirtualList.IntersectingIsWanted` | src/hooks/useVirtualList.ts:64-71 | every item that intersects the viewport is wanted, and without overscan no other one |
| `VirtualList.CommonHeightWindow` | src/hooks/useVirtualList.ts:64-71 | with a common height the wanted items are told by multiples of it against the edges of the viewport, overscan included |
| `VirtualList.ExtrasAreWithinOverscan` | src/hooks/useVirtualList.ts:67-71 | there are at most `overscan` extra items on either side |
| `VirtualList.PaddingsFillUp` | src/hooks/useVirtualList.ts:76-80 | top padding, rendered heights and bottom padding add up to the total height if and only if no height lies between the end and the start of the range |
| `VirtualList.ClampedViewportShowsAnItem` | src/hooks/useVirtualList.ts:44-53 | at a clamped scroll position a list with some height never shows a blank viewport |

## Left out

- Failing claim calls and failing emits: a rejected claim sets no retry, so delivery is stated for claims that succeed and events that are emitted.
- Closing a window, and the loss of what it had queued; unmounting of hooks.
- The choice of the target window, focusing it, the tray and all logging.
- UUIDs are consecutive numbers; percent-encoding of `cwd` is an arbitrary function.
- Two calls of `enqueue_batch` at once interleave in `ExternalOpenDelivery` per push; the class in `ExternalOpenBackend` runs one call at a time.
- `readLogicalLineAtAbsoluteY` (src/lib/actionLinksAddon.ts:268-316): the parsed line and its links are part of the buffer value.
- Regular expressions, prefilters and action builders: a matcher is the list of matches it reports on a line.
- The memo `_cache` from text to links, link clicks, tooltips, debounce and throttle timers: a refresh may happen at any time.
- `DecorationLayer.ActionLinksAddon.EnsureDecoration`: a marker or decoration that cannot be registered; registration is taken to succeed.
- How the terminal moves markers when rows are trimmed, inserted or deleted is xterm's own: a change carries an arbitrary movement of rows, and rows wholly in the scrollback are taken to move unchanged.
- Rows without a buffer line inside the window (src/lib/actionLinksAddon.ts:574-575): the window ends at the last line.
- Sizes, speeds, names, paths, toasts and time stamps of transfers; reports with a status outside the documented ones; reports for children of a directory transfer.
- Changes of the concurrency settings during a run; the caps are fixed in `TransferQueue`.
- `TransferCalls.EveryRequestIsAccountedFor`: counts the scheduler's start and resume calls; `pause_transfer`, `resume_transfer` and `cancel_transfer` calls that a user action passes straight through change no state and are not counted.
- Which finished transfers retention removes: `Remove` takes any set of ids and cleans up each of them.
- `TransferQueue.TransferProvider.RunSchedulingPass`: state updates take effect at once; an update that a handler queues between a commit and its scheduling effect, so that the effect reads a snapshot already overtaken, is not modelled.
- `TransferQueue.TransferProvider.EnqueueTransfers`: requests with an empty session, path or name are filtered out before; the model starts from the rest.
- Filtering uploads by duplicate strategy before they are enqueued.
- src/hooks/useRemoteNpuOverview.ts: a copy of the GPU hook.
- React rendering: a render and the run of its effects are two steps with anything in between, which covers the case where they are one.
- `isFailed` of the command queue: a plain read.
- Floating mode, panel widths and labels of the activity bar; `null`, `undefined` and an absent list are one value.
- Floating point in the virtual list: heights and positions are real numbers.
- Negative item heights in the virtual list.
- Command names, options and interactive commands in src/lib/commandSuggestionSuppression.ts: easy lookups on the tokens.
- Pane trees, tabs, settings, the updater, log sanitising and quick-command import.
