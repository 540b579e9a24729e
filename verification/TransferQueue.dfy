/** The transfer queue of src/context/TransferContext.tsx: slots per direction, a request map, a parked set. */
module TransferQueue {
  import opened Text

  /** Transfer ids are only ever compared. */
  type Id(==, !new)

  datatype Direction = Download | Upload | Copy
  datatype Status = Queued | Transferring | Paused | Completed | Failed | Cancelled
  datatype QueueState = Unmanaged | Pending | Running

  datatype Item = Item(id: Id, direction: Direction, status: Status, queueState: QueueState)

  /**
   * `items` is the insertion-ordered transfer map, `requests` the keys of the request map, `parked` the resumed transfers
   * waiting for a slot. `starts` counts the backend calls that start a transfer per id, `resumes` the `resume_transfer` calls, and
   * `grants` how often an id was enqueued or retried.
   */
  datatype State = State(
    items: seq<Item>, requests: set<Id>, parked: set<Id>, starts: multiset<Id>, resumes: multiset<Id>, grants: multiset<Id>)

  // ------------------------------------------------------------------ concurrency caps

  /** A JavaScript number: finite, or NaN / an infinity. */
  datatype Number = Finite(value: real) | NotFinite

  function Clamped(setting: Number): int {
    var normalized := if setting.Finite? then setting.value.Floor else 1;
    if normalized < 1 then 1 else if normalized > 10 then 10 else normalized
  }

  function BackgroundCap(setting: Number): int {
    if Clamped(setting) > 1 then Clamped(setting) - 1 else 1
  }

  datatype Caps = Caps(download: int, upload: int, copy: int)

  function CapOf(caps: Caps, d: Direction): int {
    match d
    case Download => caps.download
    case Upload => caps.upload
    case Copy => caps.copy
  }

  function CapsFor(downloadThreads: Number, uploadThreads: Number): Caps {
    var down, up := BackgroundCap(downloadThreads), BackgroundCap(uploadThreads);
    var least := if down < up then down else up;
    Caps(down, up, if least < 1 then 1 else least)
  }

  /** Whatever the settings hold, every direction has at least one slot and at most nine. */
  lemma CapsAreBetweenOneAndNine(downloadThreads: Number, uploadThreads: Number, d: Direction)
    ensures 1 <= CapOf(CapsFor(downloadThreads, uploadThreads), d) <= 9
    ensures CapOf(CapsFor(downloadThreads, uploadThreads), Copy) <= CapOf(CapsFor(downloadThreads, uploadThreads), d)
  {
  }

  // ------------------------------------------------------------------ the ordered map

  function Position(items: seq<Item>, id: Id): (i: nat)
    ensures i <= |items|
    ensures i < |items| ==> items[i].id == id
    ensures forall j :: 0 <= j < i ==> items[j].id != id
  {
    if items == [] || items[0].id == id then 0 else 1 + Position(items[1..], id)
  }

  predicate Has(items: seq<Item>, id: Id) { Position(items, id) < |items| }

  function Get(items: seq<Item>, id: Id): (item: Item)
    requires Has(items, id)
    ensures item.id == id
  {
    items[Position(items, id)]
  }

  /** `Map.set`: an existing key keeps its place, a new one goes last. */
  function Put(items: seq<Item>, item: Item): seq<Item> {
    if Has(items, item.id) then items[Position(items, item.id) := item] else items + [item]
  }

  function Without(items: seq<Item>, gone: set<Id>): seq<Item> {
    if items == [] then []
    else if items[0].id in gone then Without(items[1..], gone)
    else [items[0]] + Without(items[1..], gone)
  }

  predicate DistinctIds(items: seq<Item>) {
    forall i, j :: 0 <= i < j < |items| ==> items[i].id != items[j].id
  }

  lemma HasIff(items: seq<Item>, id: Id)
    ensures Has(items, id) <==> exists i :: 0 <= i < |items| && items[i].id == id
  {
  }

  lemma PutKeepsIds(items: seq<Item>, item: Item, id: Id)
    requires DistinctIds(items)
    ensures DistinctIds(Put(items, item))
    ensures Has(Put(items, item), id) <==> Has(items, id) || id == item.id
    ensures Has(Put(items, item), item.id) && Get(Put(items, item), item.id) == item
  {
    var p := Position(items, item.id);
    HasIff(items, id);
    HasIff(Put(items, item), id);
    assert Put(items, item)[p] == item;
    if id != item.id && Has(items, id) {
      assert Put(items, item)[Position(items, id)].id == id;
    }
  }

  lemma {:induction false} WithoutKeepsIds(items: seq<Item>, gone: set<Id>)
    requires DistinctIds(items)
    ensures DistinctIds(Without(items, gone))
    ensures forall k :: 0 <= k < |Without(items, gone)| ==> exists i :: 0 <= i < |items| && items[i] == Without(items, gone)[k]
    ensures forall i :: 0 <= i < |items| && items[i].id !in gone ==> exists k :: 0 <= k < |Without(items, gone)| && Without(items, gone)[k] == items[i]
  {
    if items != [] {
      var rest := items[1..];
      WithoutKeepsIds(rest, gone);
      assert forall i :: 0 <= i < |rest| ==> rest[i] == items[i + 1];
      var w := Without(items, gone);
      if items[0].id !in gone {
        assert w[0] == items[0];
        assert forall k :: 0 <= k < |Without(rest, gone)| ==> w[k + 1] == Without(rest, gone)[k];
      }
      forall i | 0 <= i < |items| && items[i].id !in gone
        ensures exists k :: 0 <= k < |w| && w[k] == items[i]
      {
        if i > 0 {
          var k :| 0 <= k < |Without(rest, gone)| && Without(rest, gone)[k] == rest[i - 1];
          assert items[0].id !in gone ==> w[k + 1] == items[i];
        }
      }
    }
  }

  lemma HasAfterWithout(items: seq<Item>, gone: set<Id>, id: Id)
    requires DistinctIds(items) && Has(items, id) && id !in gone
    ensures Has(Without(items, gone), id)
  {
    WithoutKeepsIds(items, gone);
    var i := Position(items, id);
    var k :| 0 <= k < |Without(items, gone)| && Without(items, gone)[k] == items[i];
  }

  // ------------------------------------------------------------------ occupied slots

  predicate IsRunning(item: Item, d: Direction) {
    item.queueState.Running? && item.status.Transferring? && item.direction == d
  }

  function Slot(item: Item, d: Direction): nat { if IsRunning(item, d) then 1 else 0 }

  function RunningCount(items: seq<Item>, d: Direction): nat {
    if items == [] then 0 else Slot(items[0], d) + RunningCount(items[1..], d)
  }

  lemma {:induction false} CountUpdate(items: seq<Item>, i: nat, item: Item, d: Direction)
    requires i < |items|
    ensures RunningCount(items[i := item], d) == RunningCount(items, d) - Slot(items[i], d) + Slot(item, d)
  {
    if i == 0 {
      assert items[0 := item][1..] == items[1..];
    } else {
      CountUpdate(items[1..], i - 1, item, d);
      assert items[i := item][1..] == items[1..][i - 1 := item];
    }
  }

  lemma {:induction false} CountAppend(items: seq<Item>, item: Item, d: Direction)
    ensures RunningCount(items + [item], d) == RunningCount(items, d) + Slot(item, d)
  {
    if items == [] {
      assert items + [item] == [item];
      assert [item][1..] == [];
    } else {
      CountAppend(items[1..], item, d);
      assert (items + [item])[1..] == items[1..] + [item];
    }
  }

  function SlotOf(items: seq<Item>, id: Id, d: Direction): nat {
    if Has(items, id) then Slot(Get(items, id), d) else 0
  }

  lemma CountPut(items: seq<Item>, item: Item, d: Direction)
    ensures RunningCount(Put(items, item), d) == RunningCount(items, d) - SlotOf(items, item.id, d) + Slot(item, d)
  {
    if Has(items, item.id) {
      CountUpdate(items, Position(items, item.id), item, d);
    } else {
      CountAppend(items, item, d);
    }
  }

  lemma {:induction false} CountWithout(items: seq<Item>, gone: set<Id>, d: Direction)
    ensures RunningCount(Without(items, gone), d) <= RunningCount(items, d)
  {
    if items != [] {
      CountWithout(items[1..], gone, d);
    }
  }

  predicate WithinCaps(s: State, caps: Caps) {
    forall d :: RunningCount(s.items, d) <= CapOf(caps, d)
  }

  // ------------------------------------------------------------------ the scheduling pass

  predicate Dispatchable(s: State, item: Item) {
    item.status.Queued? && (item.id in s.requests || item.id in s.parked)
  }

  function Started(item: Item): Item { item.(status := Transferring, queueState := Running) }

  /** Offers a free slot to the item at position `i`; a parked transfer resumes, a requested one starts. */
  function Consider(s: State, i: nat, caps: Caps): (r: State)
    requires i < |s.items|
    ensures |r.items| == |s.items| && r.items[i] in {s.items[i], Started(s.items[i])}
    ensures forall j :: 0 <= j < |s.items| && j != i ==> r.items[j] == s.items[j]
    ensures forall id :: id != s.items[i].id ==> (id in r.requests <==> id in s.requests) && (id in r.parked <==> id in s.parked)
  {
    var item := s.items[i];
    if !Dispatchable(s, item) || RunningCount(s.items, item.direction) >= CapOf(caps, item.direction) then s
    else if item.id in s.parked then s.(items := s.items[i := Started(item)], parked := s.parked - {item.id},
                                        resumes := s.resumes + multiset{item.id})
    else s.(items := s.items[i := Started(item)], requests := s.requests - {item.id},
            starts := s.starts + multiset{item.id})
  }

  /** The pass as a rule: offer free slots to the items in map order, recounting each time. `t[n]` is the state after `n` offers. */
  ghost predicate IsPass(t: seq<State>, caps: Caps) {
    && t != []
    && (forall n :: 0 <= n < |t| ==> |t[n].items| == |t| - 1)
    && (forall n :: 0 <= n < |t| - 1 ==> t[n + 1] == Consider(t[n], n, caps))
  }

  function Offers(s: State, caps: Caps, n: nat): (t: seq<State>)
    requires n <= |s.items|
    ensures |t| == n + 1 && t[0] == s
    ensures forall m :: 0 <= m <= n ==> |t[m].items| == |s.items|
    ensures forall m :: 0 <= m < n ==> t[m + 1] == Consider(t[m], m, caps)
  {
    if n == 0 then [s] else
      var t := Offers(s, caps, n - 1);
      t + [Consider(t[n - 1], n - 1, caps)]
  }

  function Pass(s: State, caps: Caps): State { Offers(s, caps, |s.items|)[|s.items|] }

  lemma OffersArePass(s: State, caps: Caps) returns (t: seq<State>)
    ensures IsPass(t, caps) && t[0] == s && |t| == |s.items| + 1 && t[|s.items|] == Pass(s, caps)
  {
    t := Offers(s, caps, |s.items|);
  }

  /** Ids and directions stay put during a pass. */
  lemma {:induction false} PassKeepsIds(t: seq<State>, caps: Caps, n: nat, i: nat)
    requires IsPass(t, caps) && n < |t| && i < |t| - 1
    ensures t[n].items[i].id == t[0].items[i].id && t[n].items[i].direction == t[0].items[i].direction
  {
    if n > 0 {
      PassKeepsIds(t, caps, n - 1, i);
    }
  }

  /** An offer to position `n` does not concern any other position. */
  lemma {:induction false} OffersAreLocal(t: seq<State>, caps: Caps, m: nat, n: nat, i: nat)
    requires IsPass(t, caps) && DistinctIds(t[0].items) && m <= n < |t| && i < |t| - 1 && (n <= i || i < m)
    ensures t[n].items[i] == t[m].items[i]
    ensures Dispatchable(t[n], t[n].items[i]) <==> Dispatchable(t[m], t[m].items[i])
  {
    if m < n {
      OffersAreLocal(t, caps, m, n - 1, i);
      PassKeepsIds(t, caps, n - 1, i);
      PassKeepsIds(t, caps, n - 1, n - 1);
    }
  }

  lemma OfferTakesAtMostOneFreeSlot(s: State, i: nat, caps: Caps, d: Direction)
    requires i < |s.items|
    ensures var before, after := RunningCount(s.items, d), RunningCount(Consider(s, i, caps).items, d);
            before <= after && (after != before ==> after == before + 1 <= CapOf(caps, d))
  {
    CountUpdate(s.items, i, Started(s.items[i]), d);
  }

  /** Offers never free a slot. */
  lemma {:induction false} CountsOnlyGrow(t: seq<State>, caps: Caps, m: nat, n: nat, d: Direction)
    requires IsPass(t, caps) && m <= n < |t|
    ensures RunningCount(t[m].items, d) <= RunningCount(t[n].items, d)
  {
    if m < n {
      CountsOnlyGrow(t, caps, m, n - 1, d);
      OfferTakesAtMostOneFreeSlot(t[n - 1], n - 1, caps, d);
    }
  }

  /** Work-conserving: after a pass, a direction with a dispatchable transfer left has all its slots taken. */
  lemma PassIsWorkConserving(s: State, caps: Caps, i: nat)
    requires DistinctIds(s.items) && i < |s.items| == |Pass(s, caps).items|
    requires Dispatchable(Pass(s, caps), Pass(s, caps).items[i])
    ensures RunningCount(Pass(s, caps).items, s.items[i].direction) >= CapOf(caps, s.items[i].direction)
  {
    var t := OffersArePass(s, caps);
    OffersAreLocal(t, caps, i + 1, |s.items|, i);
    PassedOverMeansFull(t, caps, i);
    CountsOnlyGrow(t, caps, i, |s.items|, s.items[i].direction);
  }

  lemma PassedOverMeansFull(t: seq<State>, caps: Caps, i: nat)
    requires IsPass(t, caps) && i < |t| - 1 && Dispatchable(t[i + 1], t[i + 1].items[i])
    ensures RunningCount(t[i].items, t[0].items[i].direction) >= CapOf(caps, t[0].items[i].direction)
  {
    PassKeepsIds(t, caps, i, i);
    assert t[i + 1] == Consider(t[i], i, caps);
  }

  /** First come, first served: a transfer that is passed over is never overtaken by a later one of its direction. */
  lemma NobodyIsOvertaken(s: State, caps: Caps, i: nat, j: nat)
    requires DistinctIds(s.items) && i < j < |s.items| == |Pass(s, caps).items| && s.items[i].direction == s.items[j].direction
    requires Dispatchable(Pass(s, caps), Pass(s, caps).items[i])
    ensures Pass(s, caps).items[j] == s.items[j]
  {
    var t := OffersArePass(s, caps);
    OffersAreLocal(t, caps, i + 1, |s.items|, i);
    PassedOverMeansFull(t, caps, i);
    CountsOnlyGrow(t, caps, i, j, s.items[i].direction);
    OffersAreLocal(t, caps, 0, j, j);
    OffersAreLocal(t, caps, j + 1, |s.items|, j);
    assert t[j + 1] == Consider(t[j], j, caps);
  }

  /** A pass only ever fills free slots. */
  lemma {:induction false} PassStaysWithinCaps(t: seq<State>, caps: Caps, n: nat)
    requires IsPass(t, caps) && n < |t| && WithinCaps(t[0], caps)
    ensures WithinCaps(t[n], caps)
  {
    if n > 0 {
      PassStaysWithinCaps(t, caps, n - 1);
      forall d ensures RunningCount(t[n].items, d) <= CapOf(caps, d) {
        OfferTakesAtMostOneFreeSlot(t[n - 1], n - 1, caps, d);
      }
    }
  }

  // ------------------------------------------------------------------ bookkeeping invariant

  predicate Finished(status: Status) { status.Completed? || status.Failed? || status.Cancelled? }

  function Outstanding(s: State, id: Id): nat { if id in s.requests then 1 else 0 }

  /**
   * Requests and parked ids are disjoint and name transfers of the map, and no id was started more often than it was
   * enqueued or retried, an outstanding request counting as one more start. Finished transfers have left the queue.
   */
  ghost predicate Tidy(s: State) {
    && DistinctIds(s.items)
    && (forall i :: 0 <= i < |s.items| ==> Finished(s.items[i].status) ==> s.items[i].queueState.Unmanaged?)
    && s.requests !! s.parked
    && (forall id :: id in s.requests || id in s.parked ==> Has(s.items, id))
    && (forall id :: s.starts[id] + Outstanding(s, id) <= s.grants[id])
  }

  lemma ConsiderKeepsTidy(s: State, i: nat, caps: Caps)
    requires Tidy(s) && i < |s.items|
    ensures Tidy(Consider(s, i, caps))
  {
    var t := Consider(s, i, caps);
    if t != s {
      var item := s.items[i];
      assert Position(s.items, item.id) == i;
      assert t.items == Put(s.items, Started(item));
      forall id ensures (id in t.requests || id in t.parked ==> Has(t.items, id)) && DistinctIds(t.items) {
        PutKeepsIds(s.items, Started(item), id);
      }
    }
  }

  lemma {:induction false} PassKeepsTidy(t: seq<State>, caps: Caps, n: nat)
    requires IsPass(t, caps) && n < |t| && Tidy(t[0])
    ensures Tidy(t[n])
  {
    if n > 0 {
      PassKeepsTidy(t, caps, n - 1);
      ConsiderKeepsTidy(t[n - 1], n - 1, caps);
    }
  }

  // ------------------------------------------------------------------ the steps

  /**
   * Everything that can happen to the queue. Cancel is the synchronous part of a click; CancelSettled and CancelConfirmed
   * are what follows the awaited backend call for a parked and for any other transfer. Remove is a dismissal or the retention
   * of finished transfers. RejectStart and RejectResume are rejected backend calls.
   */
  datatype Step =
    | SchedulePass
    | Remove(gone: set<Id>)
    | ClearCompleted
    | ClearAll
    | Enqueue(id: Id, direction: Direction)
    | Retry(item: Item)
    | Pause(id: Id)
    | Resume(id: Id)
    | Cancel(id: Id)
    | CancelSettled(id: Id)
    | CancelConfirmed(id: Id)
    | BackendStarted(id: Id, direction: Direction)
    | BackendProgress(id: Id)
    | BackendResumed(id: Id)
    | BackendPaused(id: Id)
    | BackendFinished(id: Id, status: Status)
    | RejectStart(id: Id)
    | RejectResume(id: Id)
    | ExternalProgress(id: Id, direction: Direction)
    | ExternalFinished(id: Id, status: Status)

  /** New ids are fresh, and finishing events carry a finished status; nothing else is restricted. */
  predicate Enabled(s: State, step: Step) {
    match step
    case Enqueue(id, _) => !Has(s.items, id)
    case BackendFinished(_, status) => Finished(status)
    case ExternalFinished(_, status) => Finished(status)
    case _ => true
  }

  /** The cancel button's reducer: completed and failed transfers keep their outcome. */
  function CancelEdit(item: Item): Option<Item> {
    if item.status.Completed? || item.status.Failed? then None
    else Some(item.(status := Cancelled, queueState := Unmanaged))
  }

  /** Pausing what has not started is local; anything else is left to the backend. */
  function PauseEdit(s: State, item: Item): Option<Item> {
    if !item.status.Queued? then None
    else if item.id in s.requests then Some(item.(status := Paused))
    else if item.id in s.parked then Some(item.(status := Paused, queueState := Running))
    else None
  }

  /** Resuming re-queues: a request stays a request, a started transfer goes back to pending. */
  function ResumeEdit(s: State, item: Item): Option<Item> {
    if !item.status.Paused? then None
    else if item.id in s.requests then Some(item.(status := Queued))
    else if item.queueState.Running? then Some(item.(status := Queued, queueState := Pending))
    else None
  }

  function StartedEdit(s: State, item: Item, d: Direction): Item {
    item.(direction := d, status := Transferring,
          queueState := if item.queueState.Unmanaged? && item.id in s.requests then Running else item.queueState)
  }

  /** What a step writes over an item that is in the map. */
  function EditOf(s: State, step: Step, item: Item): Option<Item> {
    match step
    case Pause(_) => PauseEdit(s, item)
    case Resume(_) => ResumeEdit(s, item)
    case Cancel(_) => if item.id in s.requests then CancelEdit(item) else None
    case CancelSettled(_) => CancelEdit(item)
    case CancelConfirmed(_) => CancelEdit(item)
    case BackendStarted(_, d) => Some(StartedEdit(s, item, d))
    case BackendProgress(_) => Some(item.(status := Transferring))
    case BackendResumed(_) => Some(item.(status := Transferring))
    case BackendPaused(_) => Some(item.(status := Paused))
    case BackendFinished(_, status) => Some(item.(status := status, queueState := Unmanaged))
    case RejectStart(_) => if Finished(item.status) then None else Some(item.(status := Failed, queueState := Unmanaged))
    case RejectResume(_) =>
      if item.status.Completed? || item.status.Cancelled? then None else Some(item.(status := Failed, queueState := Unmanaged))
    case ExternalFinished(_, status) => Some(item.(status := status, queueState := Unmanaged))
    case _ => None
  }

  /** What a step writes into the transfer map. */
  function Edit(s: State, step: Step): Option<Item> {
    match step
    case SchedulePass => None
    case Remove(_) => None
    case ClearCompleted => None
    case ClearAll => None
    case Enqueue(id, d) => Some(Item(id, d, Queued, Pending))
    case Retry(item) => Some(item.(status := Queued, queueState := Pending))
    case ExternalProgress(id, d) => Some(Item(id, d, Transferring, Unmanaged))
    case BackendStarted(id, d) =>
      if Has(s.items, id) then EditOf(s, step, Get(s.items, id))
      else Some(Item(id, d, Transferring, if id in s.requests then Running else Unmanaged))
    case _ => if Has(s.items, step.id) then EditOf(s, step, Get(s.items, step.id)) else None
  }

  /** `cleanupTransferArtifacts`. */
  function Forgotten(s: State, gone: set<Id>): State {
    s.(requests := s.requests - gone, parked := s.parked - gone)
  }

  /** What a step does to the request map and the parked set. */
  function Refs(s: State, step: Step): State {
    match step
    case Enqueue(id, _) => s.(requests := s.requests + {id}, grants := s.grants + multiset{id})
    case Retry(item) =>
      s.(requests := s.requests + {item.id}, parked := s.parked - {item.id}, grants := s.grants + multiset{item.id})
    case Resume(id) =>
      if Has(s.items, id) && Get(s.items, id).status.Paused? && id !in s.requests && Get(s.items, id).queueState.Running?
      then s.(parked := s.parked + {id})
      else s
    case Cancel(id) => Forgotten(s, {id})
    case CancelConfirmed(id) => Forgotten(s, {id})
    case BackendFinished(id, _) => Forgotten(s, {id})
    case _ => s
  }

  function CompletedIds(items: seq<Item>): set<Id> {
    set i | 0 <= i < |items| && items[i].status.Completed? :: items[i].id
  }

  function Removed(s: State, gone: set<Id>): State {
    Forgotten(s, gone).(items := Without(s.items, gone))
  }

  function Written(items: seq<Item>, edit: Option<Item>): seq<Item> {
    match edit
    case Some(item) => Put(items, item)
    case None => items
  }

  function Next(s: State, step: Step, caps: Caps): State {
    match step
    case SchedulePass => Pass(s, caps)
    case Remove(gone) => Removed(s, gone)
    case ClearCompleted => Removed(s, CompletedIds(s.items))
    case ClearAll => State([], {}, {}, s.starts, s.resumes, s.grants)
    case _ => Refs(s, step).(items := Written(s.items, Edit(s, step)))
  }

  predicate IsEdit(step: Step) {
    !step.SchedulePass? && !step.Remove? && !step.ClearCompleted? && !step.ClearAll?
  }

  function Initial(): State { State([], {}, {}, multiset{}, multiset{}, multiset{}) }

  ghost predicate IsRun(states: seq<State>, steps: seq<Step>, caps: Caps) {
    && |states| == |steps| + 1 && states[0] == Initial()
    && forall i :: 0 <= i < |steps| ==> Enabled(states[i], steps[i]) && states[i + 1] == Next(states[i], steps[i], caps)
  }

  // ------------------------------------------------------------------ every step keeps the books

  lemma EditIsTame(s: State, step: Step)
    requires Tidy(s) && Enabled(s, step) && IsEdit(step) && Edit(s, step).Some?
    ensures var item := Edit(s, step).value;
            && (Finished(item.status) ==> item.queueState.Unmanaged?)
            && (!step.Retry? ==> item.id == step.id)
  {
  }

  lemma RefsAreTame(s: State, step: Step)
    requires Tidy(s) && Enabled(s, step) && IsEdit(step)
    ensures var t := Refs(s, step);
            && t.items == s.items && t.starts == s.starts && t.resumes == s.resumes && t.requests !! t.parked
            && (forall id :: t.starts[id] + Outstanding(t, id) <= t.grants[id])
            && (forall id :: id in t.requests || id in t.parked ==>
                  Has(s.items, id) || (Edit(s, step).Some? && id == Edit(s, step).value.id))
  {
  }

  lemma EditKeepsTidy(s: State, step: Step, caps: Caps)
    requires Tidy(s) && Enabled(s, step) && IsEdit(step)
    ensures Tidy(Next(s, step, caps))
  {
    RefsAreTame(s, step);
    if Edit(s, step).Some? {
      EditIsTame(s, step);
      var t, item := Next(s, step, caps), Edit(s, step).value;
      forall id
        ensures DistinctIds(t.items) && (id in t.requests || id in t.parked ==> Has(t.items, id))
      {
        PutKeepsIds(s.items, item, id);
      }
    }
  }

  lemma RemoveKeepsTidy(s: State, gone: set<Id>)
    requires Tidy(s)
    ensures Tidy(Removed(s, gone))
  {
    WithoutKeepsIds(s.items, gone);
    var t := Removed(s, gone);
    forall id | id in t.requests || id in t.parked ensures Has(t.items, id) {
      HasAfterWithout(s.items, gone, id);
    }
  }

  lemma StepKeepsTidy(s: State, step: Step, caps: Caps)
    requires Tidy(s) && Enabled(s, step)
    ensures Tidy(Next(s, step, caps))
  {
    if IsEdit(step) {
      EditKeepsTidy(s, step, caps);
    } else if step.SchedulePass? {
      var t := OffersArePass(s, caps);
      PassKeepsTidy(t, caps, |s.items|);
    } else if !step.ClearAll? {
      RemoveKeepsTidy(s, if step.Remove? then step.gone else CompletedIds(s.items));
    }
  }

  /**
   * Over every run: the request map and the parked set are disjoint and name only transfers of the map, and an id is never
   * started more often than it was enqueued or retried.
   */
  lemma {:induction false} BooksBalance(states: seq<State>, steps: seq<Step>, caps: Caps, n: nat)
    requires IsRun(states, steps, caps) && n < |states|
    ensures Tidy(states[n])
  {
    if n > 0 {
      BooksBalance(states, steps, caps, n - 1);
      StepKeepsTidy(states[n - 1], steps[n - 1], caps);
    }
  }

  // ------------------------------------------------------------------ the provider as the source writes it

  /** Enqueueing a batch: one `Enqueue` per transfer, in order. */
  function EnqueuedAll(s: State, batch: seq<(Id, Direction)>, caps: Caps): State {
    if batch == [] then s
    else Next(EnqueuedAll(s, batch[..|batch| - 1], caps), Enqueue(batch[|batch| - 1].0, batch[|batch| - 1].1), caps)
  }

  lemma EveryDirection(d: Direction)
    ensures d in {Download, Upload, Copy}
  {
    assert d == Download || d == Upload || d == Copy;
  }

  /** Counting up by hand keeps the counters right when a queued transfer starts. */
  lemma CountersFollow(items: seq<Item>, i: nat, candidate: Item, running: map<Direction, int>)
    requires i < |items| && items[i] == candidate && candidate.status.Queued? && running.Keys == {Download, Upload, Copy}
    requires forall d :: d in running ==> running[d] == RunningCount(items, d)
    ensures var d := candidate.direction;
            && d in running && running[d := running[d] + 1].Keys == running.Keys
            && forall e :: e in running ==> running[d := running[d] + 1][e] == RunningCount(items[i := Started(candidate)], e)
  {
    EveryDirection(candidate.direction);
    forall e ensures RunningCount(items[i := Started(candidate)], e) == RunningCount(items, e) + Slot(Started(candidate), e) {
      CountUpdate(items, i, Started(candidate), e);
    }
  }

  class TransferProvider {
    var items: seq<Item>
    var requests: set<Id>
    var parked: set<Id>
    ghost var starts: multiset<Id>
    ghost var resumes: multiset<Id>
    ghost var grants: multiset<Id>

    ghost function View(): State
      reads this
    {
      State(items, requests, parked, starts, resumes, grants)
    }

    constructor ()
      ensures View() == Initial()
    {
      items, requests, parked := [], {}, {};
      starts, resumes, grants := multiset{}, multiset{}, multiset{};
    }

    method CountRunning() returns (running: map<Direction, int>)
      ensures running.Keys == {Download, Upload, Copy}
      ensures forall d :: d in running ==> running[d] == RunningCount(items, d)
    {
      running := map[Download := 0, Upload := 0, Copy := 0];
      for i := 0 to |items|
        invariant running.Keys == {Download, Upload, Copy}
        invariant forall d :: d in running ==> running[d] == RunningCount(items[..i], d)
      {
        var item := items[i];
        assert items[..i + 1] == items[..i] + [item];
        forall d ensures RunningCount(items[..i + 1], d) == RunningCount(items[..i], d) + Slot(item, d) {
          CountAppend(items[..i], item, d);
        }
        if item.queueState == Running && item.status == Transferring {
          running := running[item.direction := running[item.direction] + 1];
        }
      }
      assert items[..|items|] == items;
    }

    /** The reducer of a dispatch: only a transfer that is still queued starts. */
    method MarkStarted(id: Id)
      modifies this`items
      ensures items == if Has(old(items), id) && Get(old(items), id).status.Queued?
                       then Put(old(items), Started(Get(old(items), id))) else old(items)
    {
      if Has(items, id) && Get(items, id).status == Queued {
        items := Put(items, Started(Get(items, id)));
      }
    }

    /** The body of the dispatch loop for a queued candidate that was requested or parked when the effect began. */
    method OfferSlot(candidate: Item, running: map<Direction, int>, caps: Caps, ghost i: nat)
      returns (r: map<Direction, int>)
      requires i < |items| && items[i] == candidate && Position(items, candidate.id) == i
      requires Dispatchable(View(), candidate)
      requires running.Keys == {Download, Upload, Copy}
      requires forall d :: d in running ==> running[d] == RunningCount(items, d)
      modifies this
      ensures View() == Consider(old(View()), i, caps)
      ensures r.Keys == running.Keys
      ensures forall d :: d in r ==> r[d] == RunningCount(items, d)
    {
      r := running;
      var d := candidate.direction;
      EveryDirection(d);
      if running[d] >= CapOf(caps, d) { return; }
      CountersFollow(items, i, candidate, running);
      r := running[d := running[d] + 1];
      if candidate.id in parked {
        parked := parked - {candidate.id};
        MarkStarted(candidate.id);
        resumes := resumes + multiset{candidate.id};
      } else {
        requests := requests - {candidate.id};
        MarkStarted(candidate.id);
        starts := starts + multiset{candidate.id};
      }
    }

    /** The scheduling effect: counters are kept up to date by hand, candidates are judged by the refs at its start. */
    method RunSchedulingPass(caps: Caps)
      requires DistinctIds(items)
      modifies this
      ensures View() == Pass(old(View()), caps)
    {
      var running := CountRunning();
      var snapshot, wereRequested, wereParked := items, requests, parked;
      ghost var t := OffersArePass(View(), caps);
      for i := 0 to |snapshot|
        invariant |t| == |snapshot| + 1 && View() == t[i] && t[0] == old(View()) && IsPass(t, caps)
        invariant running.Keys == {Download, Upload, Copy}
        invariant forall d :: d in running ==> running[d] == RunningCount(items, d)
      {
        OffersAreLocal(t, caps, 0, i, i);
        PositionInPass(t, caps, i);
        assert t[i + 1] == Consider(t[i], i, caps);
        var candidate := snapshot[i];
        if (candidate.id in wereRequested || candidate.id in wereParked) && candidate.status == Queued {
          running := OfferSlot(candidate, running, caps, i);
        }
      }
    }

    method Pause(id: Id, ghost caps: Caps)
      modifies this
      ensures View() == Next(old(View()), Step.Pause(id), caps)
    {
      if id in requests && Has(items, id) && Get(items, id).status == Queued {
        items := Put(items, Get(items, id).(status := Paused));
        return;
      }
      if id in parked && Has(items, id) && Get(items, id).status == Queued {
        items := Put(items, Get(items, id).(status := Paused, queueState := Running));
      }
    }

    method Resume(id: Id, ghost caps: Caps)
      modifies this
      ensures View() == Next(old(View()), Step.Resume(id), caps)
    {
      if id in requests && Has(items, id) && Get(items, id).status == Paused {
        items := Put(items, Get(items, id).(status := Queued));
        return;
      }
      if Has(items, id) && Get(items, id).queueState == Running && Get(items, id).status == Paused {
        parked := parked + {id};
        items := Put(items, Get(items, id).(status := Queued, queueState := Pending));
      }
    }

    method Cleanup(id: Id)
      modifies this`requests, this`parked
      ensures View() == Forgotten(old(View()), {id})
    {
      requests := requests - {id};
      parked := parked - {id};
    }

    /** The synchronous part of `cancelTransfer`. */
    method Cancel(id: Id, ghost caps: Caps)
      modifies this
      ensures View() == Next(old(View()), Step.Cancel(id), caps)
    {
      if id in requests {
        Cleanup(id);
        if Has(items, id) && Get(items, id).status != Completed && Get(items, id).status != Failed {
          items := Put(items, Get(items, id).(status := Cancelled, queueState := Unmanaged));
        }
        return;
      }
      if id in parked {
        Cleanup(id);
      }
    }

    method Retry(item: Item, ghost caps: Caps)
      modifies this
      ensures View() == Next(old(View()), Step.Retry(item), caps)
    {
      parked := parked - {item.id};
      requests := requests + {item.id};
      grants := grants + multiset{item.id};
      items := Put(items, item.(status := Queued, queueState := Pending));
    }

    method EnqueueTransfers(batch: seq<(Id, Direction)>, ghost caps: Caps)
      modifies this
      ensures View() == EnqueuedAll(old(View()), batch, caps)
    {
      for i := 0 to |batch|
        invariant View() == EnqueuedAll(old(View()), batch[..i], caps)
      {
        assert batch[..i + 1][..i] == batch[..i];
        var id := batch[i].0;
        requests := requests + {id};
        grants := grants + multiset{id};
        items := Put(items, Item(id, batch[i].1, Queued, Pending));
      }
      assert batch[..|batch|] == batch;
    }
  }

  lemma PositionInPass(t: seq<State>, caps: Caps, i: nat)
    requires IsPass(t, caps) && DistinctIds(t[0].items) && i < |t| - 1
    ensures Position(t[i].items, t[0].items[i].id) == i
  {
    forall j | 0 <= j < |t| - 1 ensures t[i].items[j].id == t[0].items[j].id {
      PassKeepsIds(t, caps, i, j);
    }
  }
}
