/** What the transfer queue asks of the backend: which calls a pass makes, and where every request and parked transfer goes. */
module TransferCalls {
  import opened Text
  import opened TransferQueue
  import opened TransferSlots

  // ------------------------------------------------------------------ slots, counted another way

  /** The slots for a whole number of threads: one thread is left to the foreground where there is more than one. */
  function SlotsFor(threads: int): int { if threads <= 2 then 1 else if threads <= 10 then threads - 1 else 9 }

  lemma SlotsOfThreads(threads: int)
    ensures BackgroundCap(Finite(threads as real)) == SlotsFor(threads)
  {
    assert (threads as real).Floor == threads;
  }

  /** Each direction has the slots its own setting gives it, copying the smaller number of both; a setting that is no number counts as one thread. */
  lemma CapsFollowSettings(download: int, upload: int)
    ensures var caps := CapsFor(Finite(download as real), Finite(upload as real));
            && CapOf(caps, Download) == SlotsFor(download) && CapOf(caps, Upload) == SlotsFor(upload)
            && CapOf(caps, Copy) == SlotsFor(if download < upload then download else upload)
    ensures CapOf(CapsFor(NotFinite, Finite(upload as real)), Download) == CapOf(CapsFor(Finite(download as real), NotFinite), Upload) == 1
  {
    SlotsOfThreads(download);
    SlotsOfThreads(upload);
  }

  /** The positions of transferring transfers of a direction that the queue runs. */
  function Occupied(items: seq<Item>, d: Direction): set<int> {
    set i | 0 <= i < |items| && items[i].queueState == Running && items[i].status == Transferring && items[i].direction == d
  }

  lemma OccupiedAppend(items: seq<Item>, last: Item, d: Direction)
    ensures |Occupied(items + [last], d)| == |Occupied(items, d)| + Slot(last, d)
  {
    var before, now := Occupied(items, d), Occupied(items + [last], d);
    if IsRunning(last, d) {
      assert now == before + {|items|};
    } else {
      assert now == before;
    }
  }

  /** The slots taken are as many as there are such positions. */
  lemma {:induction false} CountIsCardinality(items: seq<Item>, d: Direction)
    ensures RunningCount(items, d) == |Occupied(items, d)|
  {
    if items != [] {
      var before, last := items[..|items| - 1], items[|items| - 1];
      CountIsCardinality(before, d);
      CountAppend(before, last, d);
      OccupiedAppend(before, last, d);
      assert items == before + [last];
    }
  }

  // ------------------------------------------------------------------ one pass

  function InParked(s: State, id: Id): nat { if id in s.parked then 1 else 0 }

  /** A step between `s` and `t` made no call for `id` and left its request and its parking alone. */
  predicate Untouched(s: State, t: State, id: Id) {
    && t.starts[id] == s.starts[id] && t.resumes[id] == s.resumes[id]
    && (id in t.requests <==> id in s.requests) && (id in t.parked <==> id in s.parked)
  }

  /** An offer to another position does not touch a transfer. */
  lemma {:induction false} OffersLeaveOthers(t: seq<State>, caps: Caps, m: nat, n: nat, id: Id)
    requires IsPass(t, caps) && m <= n < |t|
    requires forall k :: m <= k < n ==> t[0].items[k].id != id
    ensures Untouched(t[m], t[n], id)
  {
    if m < n {
      OffersLeaveOthers(t, caps, m, n - 1, id);
      PassKeepsIds(t, caps, n - 1, n - 1);
    }
  }

  /** The item was queued with a request or parked, now transfers, and exactly one call was made for it. */
  predicate Dispatched(s: State, t: State, was: Item, now: Item) {
    && was.status == Queued && now == was.(status := Transferring, queueState := Running)
    && if was.id in s.parked
       then && was.id !in t.parked && (was.id in t.requests <==> was.id in s.requests)
            && t.resumes[was.id] == s.resumes[was.id] + 1 && t.starts[was.id] == s.starts[was.id]
       else && was.id in s.requests && was.id !in t.requests && was.id !in t.parked
            && t.starts[was.id] == s.starts[was.id] + 1 && t.resumes[was.id] == s.resumes[was.id]
  }

  lemma OfferDispatches(s: State, i: nat, caps: Caps)
    requires i < |s.items|
    ensures var t, item := Consider(s, i, caps), s.items[i];
            if t.items[i] == item then
              Untouched(s, t, item.id)
              && (item.status == Queued && (item.id in s.requests || item.id in s.parked) ==>
                    RunningCount(s.items, item.direction) >= CapOf(caps, item.direction))
            else Dispatched(s, t, item, t.items[i])
  {
  }

  /**
   * What a pass does to each transfer: it is dispatched with the one call that belongs to it, or nothing about it changes; and a
   * queued transfer with a request or a parking is passed over only if its direction is full.
   */
  lemma PassServes(s: State, caps: Caps, i: nat)
    requires DistinctIds(s.items) && i < |s.items| == |Pass(s, caps).items|
    ensures var t, item := Pass(s, caps), s.items[i];
            if t.items[i] == item then
              Untouched(s, t, item.id)
              && (item.status == Queued && (item.id in s.requests || item.id in s.parked) ==>
                    RunningCount(t.items, item.direction) >= CapOf(caps, item.direction))
            else Dispatched(s, t, item, t.items[i])
  {
    var t := OffersArePass(s, caps);
    var item := s.items[i];
    OffersAreLocal(t, caps, 0, i, i);
    OffersAreLocal(t, caps, i + 1, |s.items|, i);
    OffersLeaveOthers(t, caps, 0, i, item.id);
    OffersLeaveOthers(t, caps, i + 1, |s.items|, item.id);
    assert t[i + 1] == Consider(t[i], i, caps);
    OfferDispatches(t[i], i, caps);
    CountsOnlyGrow(t, caps, i, |s.items|, item.direction);
  }

  lemma PassLeavesStrangers(s: State, caps: Caps, id: Id)
    requires !Has(s.items, id)
    ensures Untouched(s, Pass(s, caps), id)
  {
    var t := OffersArePass(s, caps);
    OffersLeaveOthers(t, caps, 0, |s.items|, id);
  }

  /**
   * A pass makes one start call for every request that leaves the map and one resume call for every transfer that leaves the parked
   * set, no others, and what left is transferring.
   */
  lemma PassMakesTheCalls(s: State, caps: Caps, id: Id)
    requires Tidy(s)
    ensures var t := Pass(s, caps);
            && (id in t.requests ==> id in s.requests) && (id in t.parked ==> id in s.parked)
            && t.starts[id] == s.starts[id] + Outstanding(s, id) - Outstanding(t, id)
            && t.resumes[id] == s.resumes[id] + InParked(s, id) - InParked(t, id)
            && ((id in s.requests && id !in t.requests) || (id in s.parked && id !in t.parked) ==>
                  Has(t.items, id) && Get(t.items, id).status == Transferring && Get(t.items, id).queueState == Running)
  {
    if Has(s.items, id) {
      var i := Position(s.items, id);
      var t := OffersArePass(s, caps);
      PassServes(s, caps, i);
      ItemInPass(t, caps, |s.items|, i);
    } else {
      PassLeavesStrangers(s, caps, id);
    }
  }

  lemma ItemInPass(t: seq<State>, caps: Caps, n: nat, i: nat)
    requires IsPass(t, caps) && DistinctIds(t[0].items) && n < |t| && i < |t| - 1
    ensures Has(t[n].items, t[0].items[i].id) && Get(t[n].items, t[0].items[i].id) == t[n].items[i]
  {
    forall j | 0 <= j < |t| - 1 ensures t[n].items[j].id == t[0].items[j].id {
      PassKeepsIds(t, caps, n, j);
    }
  }

  // ------------------------------------------------------------------ where requests and parked transfers go

  /** The step takes a transfer out of the queue, or replaces its request by a new one. */
  predicate Withdraws(s: State, step: Step, id: Id) {
    match step
    case Remove(gone) => id in gone
    case ClearCompleted => Has(s.items, id) && Get(s.items, id).status == Completed
    case ClearAll => true
    case Retry(item) => item.id == id
    case Cancel(x) => x == id
    case CancelConfirmed(x) => x == id
    case BackendFinished(x, _) => x == id
    case _ => false
  }

  predicate Asks(step: Step, id: Id) { (step.Enqueue? && step.id == id) || (step.Retry? && step.item.id == id) }

  /** A resume of a transfer that had started and that the backend has paused, not parked yet. */
  predicate Parks(s: State, step: Step, id: Id) {
    && step == Resume(id) && id !in s.requests && id !in s.parked
    && Has(s.items, id) && Get(s.items, id).status == Paused && Get(s.items, id).queueState == Running
  }

  function One(b: bool): nat { if b then 1 else 0 }

  lemma CompletedIffCleared(s: State, id: Id)
    requires DistinctIds(s.items)
    ensures id in CompletedIds(s.items) <==> Has(s.items, id) && Get(s.items, id).status == Completed
  {
    if id in CompletedIds(s.items) {
      var i :| 0 <= i < |s.items| && s.items[i].status.Completed? && s.items[i].id == id;
      assert Position(s.items, id) == i;
    }
  }

  lemma StepMovesRequest(s: State, step: Step, caps: Caps, id: Id)
    requires Tidy(s) && Enabled(s, step) && !step.SchedulePass?
    ensures var t := Next(s, step, caps);
            && t.starts[id] == s.starts[id] && t.grants[id] == s.grants[id] + One(Asks(step, id))
            && Outstanding(t, id) == Outstanding(s, id) + One(Asks(step, id)) - One(id in s.requests && Withdraws(s, step, id))
  {
    CompletedIffCleared(s, id);
  }

  lemma StepMovesParked(s: State, step: Step, caps: Caps, id: Id)
    requires Tidy(s) && Enabled(s, step) && !step.SchedulePass?
    ensures var t := Next(s, step, caps);
            && t.resumes[id] == s.resumes[id]
            && InParked(t, id) == InParked(s, id) + One(Parks(s, step, id)) - One(id in s.parked && Withdraws(s, step, id))
  {
    CompletedIffCleared(s, id);
  }

  /** How often, in the first `n` steps, a request of `id` was given up before it was started. */
  function Dropped(states: seq<State>, steps: seq<Step>, id: Id, n: nat): nat
    requires n <= |steps| < |states|
  {
    if n == 0 then 0
    else Dropped(states, steps, id, n - 1) + One(id in states[n - 1].requests && Withdraws(states[n - 1], steps[n - 1], id))
  }

  /** How often `id` was parked, and how often it left the parked set without being resumed. */
  function Parkings(states: seq<State>, steps: seq<Step>, id: Id, n: nat): nat
    requires n <= |steps| < |states|
  {
    if n == 0 then 0 else Parkings(states, steps, id, n - 1) + One(Parks(states[n - 1], steps[n - 1], id))
  }

  function Unparkings(states: seq<State>, steps: seq<Step>, id: Id, n: nat): nat
    requires n <= |steps| < |states|
  {
    if n == 0 then 0
    else Unparkings(states, steps, id, n - 1) + One(id in states[n - 1].parked && Withdraws(states[n - 1], steps[n - 1], id))
  }

  lemma StepAccounts(s: State, step: Step, caps: Caps, id: Id)
    requires Tidy(s) && Enabled(s, step)
    ensures var t := Next(s, step, caps);
            && t.starts[id] + Outstanding(t, id) + One(id in s.requests && Withdraws(s, step, id)) + s.grants[id]
               == s.starts[id] + Outstanding(s, id) + t.grants[id]
            && t.resumes[id] + InParked(t, id) + One(id in s.parked && Withdraws(s, step, id))
               == s.resumes[id] + InParked(s, id) + One(Parks(s, step, id))
  {
    if step.SchedulePass? {
      PassMakesTheCalls(s, caps, id);
      PassKeepsGrants(s, caps);
    } else {
      StepMovesRequest(s, step, caps, id);
      StepMovesParked(s, step, caps, id);
    }
  }

  lemma StepAccountsAt(states: seq<State>, steps: seq<Step>, caps: Caps, id: Id, i: nat)
    requires IsRun(states, steps, caps) && i < |steps|
    ensures var s, t := states[i], states[i + 1];
            && t.starts[id] + Outstanding(t, id) + One(id in s.requests && Withdraws(s, steps[i], id)) + s.grants[id]
               == s.starts[id] + Outstanding(s, id) + t.grants[id]
            && t.resumes[id] + InParked(t, id) + One(id in s.parked && Withdraws(s, steps[i], id))
               == s.resumes[id] + InParked(s, id) + One(Parks(s, steps[i], id))
  {
    BooksBalance(states, steps, caps, i);
    StepAccounts(states[i], steps[i], caps, id);
  }

  lemma PassKeepsGrants(s: State, caps: Caps)
    ensures Pass(s, caps).grants == s.grants
  {
    var t := OffersArePass(s, caps);
    OffersKeepGrants(t, caps, |s.items|);
  }

  lemma {:induction false} OffersKeepGrants(t: seq<State>, caps: Caps, n: nat)
    requires IsPass(t, caps) && n < |t|
    ensures t[n].grants == t[0].grants
  {
    if n > 0 { OffersKeepGrants(t, caps, n - 1); }
  }

  /**
   * On every run, each enqueue or retry of a transfer has been answered by a start call, still waits as a request, or was given up
   * by a step that withdrew it; and each parking by a resume call, a parking that still waits, or a step that withdrew it.
   */
  lemma {:induction false} EveryRequestIsAccountedFor(states: seq<State>, steps: seq<Step>, caps: Caps, id: Id, n: nat)
    requires IsRun(states, steps, caps) && n <= |steps|
    ensures states[n].grants[id] == states[n].starts[id] + Outstanding(states[n], id) + Dropped(states, steps, id, n)
    ensures Parkings(states, steps, id, n) == states[n].resumes[id] + InParked(states[n], id) + Unparkings(states, steps, id, n)
  {
    if n > 0 {
      EveryRequestIsAccountedFor(states, steps, caps, id, n - 1);
      StepAccountsAt(states, steps, caps, id, n - 1);
    }
  }

  lemma {:induction false} NothingDropped(states: seq<State>, steps: seq<Step>, id: Id, n: nat)
    requires n <= |steps| < |states| && forall i :: 0 <= i < n ==> !Withdraws(states[i], steps[i], id)
    ensures Dropped(states, steps, id, n) == 0 && Unparkings(states, steps, id, n) == 0
  {
    if n > 0 { NothingDropped(states, steps, id, n - 1); }
  }

  /** A transfer nobody withdraws is started once for every time it was asked for, but for a request that still waits. */
  lemma UndisturbedRequestsAreStarted(states: seq<State>, steps: seq<Step>, caps: Caps, id: Id, n: nat)
    requires IsRun(states, steps, caps) && n <= |steps| && forall i :: 0 <= i < n ==> !Withdraws(states[i], steps[i], id)
    ensures states[n].starts[id] + Outstanding(states[n], id) == states[n].grants[id]
    ensures states[n].resumes[id] + InParked(states[n], id) == Parkings(states, steps, id, n)
  {
    EveryRequestIsAccountedFor(states, steps, caps, id, n);
    NothingDropped(states, steps, id, n);
  }

  lemma UnaskedStep(s: State, step: Step, caps: Caps, id: Id)
    requires Tidy(s) && Enabled(s, step) && id !in s.requests && !Asks(step, id)
    ensures id !in Next(s, step, caps).requests && Next(s, step, caps).starts[id] == s.starts[id]
  {
    if step.SchedulePass? {
      PassMakesTheCalls(s, caps, id);
    } else {
      StepMovesRequest(s, step, caps, id);
    }
  }

  lemma UnaskedAt(states: seq<State>, steps: seq<Step>, caps: Caps, id: Id, i: nat)
    requires IsRun(states, steps, caps) && i < |steps| && id !in states[i].requests && !Asks(steps[i], id)
    ensures id !in states[i + 1].requests && states[i + 1].starts[id] == states[i].starts[id]
  {
    BooksBalance(states, steps, caps, i);
    UnaskedStep(states[i], steps[i], caps, id);
  }

  /** Without a request nothing starts: after a cancel, say, no start call is made until the transfer is retried. */
  lemma {:induction false} NoStartUnasked(states: seq<State>, steps: seq<Step>, caps: Caps, id: Id, m: nat, n: nat)
    requires IsRun(states, steps, caps) && m <= n <= |steps| && id !in states[m].requests
    requires forall i :: m <= i < n ==> !Asks(steps[i], id)
    ensures id !in states[n].requests && states[n].starts[id] == states[m].starts[id]
  {
    if m < n {
      NoStartUnasked(states, steps, caps, id, m, n - 1);
      UnaskedAt(states, steps, caps, id, n - 1);
    }
  }

  // ------------------------------------------------------------------ what the user's actions are for

  /** After an enqueue or a retry the transfer is queued and requested, so that `PassServes` applies to it. */
  lemma AskedForIsServable(s: State, step: Step, caps: Caps, id: Id)
    requires Tidy(s) && Enabled(s, step) && Asks(step, id)
    ensures var t := Next(s, step, caps);
            id in t.requests && id !in t.parked && Has(t.items, id) && Get(t.items, id).status == Queued
  {
    PutKeepsIds(s.items, Edit(s, step).value, id);
    if step.Enqueue? { assert id !in s.parked; }
  }

  /** Resuming a transfer that had started parks it, queued, so that `PassServes` applies to it. */
  lemma ResumedIsServable(s: State, caps: Caps, id: Id)
    requires Tidy(s) && Parks(s, Resume(id), id)
    ensures var t := Next(s, Resume(id), caps);
            id in t.parked && Has(t.items, id) && Get(t.items, id).status == Queued && t.requests == s.requests
  {
    PutKeepsIds(s.items, Edit(s, Resume(id)).value, id);
  }

  /** A cancelled request is gone and its transfer is cancelled, unless it had completed or failed. */
  lemma CancelledIsGone(s: State, caps: Caps, id: Id)
    requires Tidy(s) && id in s.requests
    ensures var t, was := Next(s, Cancel(id), caps), Get(s.items, id);
            && id !in t.requests && id !in t.parked && Has(t.items, id)
            && (was.status != Completed && was.status != Failed ==>
                  Get(t.items, id).status == Cancelled && Get(t.items, id).queueState == Unmanaged)
  {
    if Edit(s, Cancel(id)).Some? { PutKeepsIds(s.items, Edit(s, Cancel(id)).value, id); }
  }

  /** A report, a rejection or a confirmed cancel that ends a transfer. */
  predicate Ends(step: Step) {
    step.CancelConfirmed? || step.CancelSettled? || step.BackendFinished? || step.RejectStart? || step.RejectResume? || step.ExternalFinished?
  }

  /** How it ends. */
  function Outcome(step: Step): Status
    requires Ends(step)
  {
    match step
    case CancelConfirmed(_) => Cancelled
    case CancelSettled(_) => Cancelled
    case BackendFinished(_, status) => status
    case ExternalFinished(_, status) => status
    case _ => Failed
  }

  lemma EndEdit(s: State, step: Step)
    requires Ends(step) && Has(s.items, step.id) && !Finished(Get(s.items, step.id).status)
    ensures Edit(s, step) == Some(Get(s.items, step.id).(status := Outcome(step), queueState := Unmanaged))
  {
  }

  /** A transfer that ends gives its slot back, and no other transfer's slot is touched. */
  lemma EndingFreesTheSlot(s: State, step: Step, caps: Caps, d: Direction)
    requires Tidy(s) && Enabled(s, step) && Ends(step) && Has(s.items, step.id) && !Finished(Get(s.items, step.id).status)
    ensures var t, was := Next(s, step, caps), Get(s.items, step.id);
            && Has(t.items, step.id) && Get(t.items, step.id) == was.(status := Outcome(step), queueState := Unmanaged)
            && RunningCount(t.items, d)
               == RunningCount(s.items, d) - One(was.queueState == Running && was.status == Transferring && was.direction == d)
            && (step.CancelConfirmed? || step.BackendFinished? ==> step.id !in t.requests && step.id !in t.parked)
  {
    EndEdit(s, step);
    var now := Edit(s, step).value;
    PutKeepsIds(s.items, now, step.id);
    CountPut(s.items, now, d);
  }

  /** A transfer that the backend pauses gives its slot back and stays started, so that resuming it parks it. */
  lemma PausingFreesTheSlot(s: State, caps: Caps, id: Id, d: Direction)
    requires Tidy(s) && Has(s.items, id)
    ensures var t, was := Next(s, BackendPaused(id), caps), Get(s.items, id);
            && Has(t.items, id) && Get(t.items, id) == was.(status := Paused) && t.requests == s.requests && t.parked == s.parked
            && RunningCount(t.items, d)
               == RunningCount(s.items, d) - One(was.queueState == Running && was.status == Transferring && was.direction == d)
  {
    var now := Get(s.items, id).(status := Paused);
    PutKeepsIds(s.items, now, id);
    CountPut(s.items, now, d);
  }

  /** The step reports on the transfer or asks for it again, or takes it out of the list. */
  predicate Overturns(s: State, step: Step, id: Id) {
    match step
    case Retry(item) => item.id == id
    case Remove(gone) => id in gone
    case ClearCompleted => Has(s.items, id) && Get(s.items, id).status == Completed
    case ClearAll => true
    case BackendStarted(x, _) => x == id
    case BackendProgress(x) => x == id
    case BackendResumed(x) => x == id
    case BackendPaused(x) => x == id
    case BackendFinished(x, _) => x == id
    case ExternalProgress(x, _) => x == id
    case ExternalFinished(x, _) => x == id
    case _ => false
  }

  lemma EditKeepsOutcome(s: State, step: Step, id: Id)
    requires Enabled(s, step) && IsEdit(step) && !Overturns(s, step, id) && Has(s.items, id) && Finished(Get(s.items, id).status)
    requires Edit(s, step).Some? && Edit(s, step).value.id == id
    ensures Edit(s, step).value.status == Get(s.items, id).status
  {
  }

  lemma OutcomeSurvivesEdit(s: State, step: Step, id: Id)
    requires Enabled(s, step) && IsEdit(step) && !Overturns(s, step, id)
    requires Has(s.items, id) && Finished(Get(s.items, id).status)
    ensures var items := Written(s.items, Edit(s, step)); Has(items, id) && Get(items, id).status == Get(s.items, id).status
  {
    var edit := Edit(s, step);
    if edit.Some? {
      if edit.value.id == id {
        EditKeepsOutcome(s, step, id);
        GetPut(s.items, edit.value);
      } else {
        GetAfterPut(s.items, edit.value, id);
      }
    }
  }

  lemma OutcomeSurvivesStep(s: State, step: Step, caps: Caps, id: Id)
    requires Tidy(s) && Enabled(s, step) && !Overturns(s, step, id) && Has(s.items, id) && Finished(Get(s.items, id).status)
    ensures var t := Next(s, step, caps); Has(t.items, id) && Get(t.items, id).status == Get(s.items, id).status
  {
    if IsEdit(step) {
      OutcomeSurvivesEdit(s, step, id);
    } else if step.SchedulePass? {
      var t := OffersArePass(s, caps);
      PassServes(s, caps, Position(s.items, id));
      ItemInPass(t, caps, |s.items|, Position(s.items, id));
    } else {
      CompletedIffCleared(s, id);
      GetAfterWithout(s.items, if step.Remove? then step.gone else CompletedIds(s.items), id);
    }
  }

  /** An outcome stands: no late cancel, rejection, pause, resume or pass changes how a finished transfer ended. */
  lemma {:induction false} OutcomesStand(states: seq<State>, steps: seq<Step>, caps: Caps, id: Id, m: nat, n: nat)
    requires IsRun(states, steps, caps) && m <= n <= |steps|
    requires Has(states[m].items, id) && Finished(Get(states[m].items, id).status)
    requires forall i :: m <= i < n ==> !Overturns(states[i], steps[i], id)
    ensures Has(states[n].items, id) && Get(states[n].items, id).status == Get(states[m].items, id).status
  {
    if m < n {
      OutcomesStand(states, steps, caps, id, m, n - 1);
      BooksBalance(states, steps, caps, n - 1);
      OutcomeSurvivesStep(states[n - 1], steps[n - 1], caps, id);
    }
  }

  lemma PutTwice(items: seq<Item>, i: nat, a: Item)
    requires i < |items| && Position(items, items[i].id) == i && a.id == items[i].id
    ensures Put(items, a) == items[i := a] && Position(items[i := a], a.id) == i
    ensures Put(items[i := a], items[i]) == items
  {
    assert Position(items[i := a], a.id) == i;
    assert items[i := a][i := items[i]] == items;
  }

  /** Pausing a transfer that waits for a slot and resuming it restores the queue; in between, `PassServes` leaves it alone. */
  lemma PauseAndResumeRestore(s: State, caps: Caps, id: Id)
    requires Tidy(s) && Has(s.items, id) && Get(s.items, id).status == Queued
    requires id in s.requests || (id in s.parked && Get(s.items, id).queueState == Pending)
    ensures var t := Next(s, Pause(id), caps);
            Has(t.items, id) && Get(t.items, id).status == Paused && Next(t, Resume(id), caps) == s
  {
    var i := Position(s.items, id);
    PutTwice(s.items, i, Edit(s, Pause(id)).value);
  }
}
