/** When the slots of the transfer queue hold over whole runs, and when a waiting request stays servable. */
module TransferSlots {
  import opened Text
  import opened TransferQueue

  // ------------------------------------------------------------------ what takes a slot outside a pass

  predicate IsReport(step: Step) { step.BackendStarted? || step.BackendProgress? || step.BackendResumed? }

  /**
   * The step gives a slot of `d` to a transfer that holds none: a progress or resumed report for a started transfer that is not
   * transferring, or a start under direction `d` for a started transfer, or for an unmanaged one whose request still waits.
   */
  predicate Promotes(s: State, step: Step, d: Direction) {
    IsReport(step) && Has(s.items, step.id) &&
    var item := Get(s.items, step.id);
    if step.BackendStarted? then
      && step.direction == d
      && (item.queueState.Running? || (item.queueState.Unmanaged? && item.id in s.requests))
      && !(item.queueState.Running? && item.status.Transferring? && item.direction == d)
    else item.queueState.Running? && !item.status.Transferring? && item.direction == d
  }

  /** No slot is given away in a direction that is full. */
  predicate Fits(s: State, step: Step, caps: Caps) {
    forall d :: Promotes(s, step, d) ==> RunningCount(s.items, d) < CapOf(caps, d)
  }

  /** The guard is exact: an edit gains a slot of `d` if and only if it promotes. */
  lemma GainsSlotIffPromotes(s: State, step: Step, d: Direction)
    requires Tidy(s) && Enabled(s, step) && IsEdit(step) && Edit(s, step).Some?
    ensures Slot(Edit(s, step).value, d) > SlotOf(s.items, Edit(s, step).value.id, d) <==> Promotes(s, step, d)
  {
    if IsReport(step) && Has(s.items, step.id) {
      assert Get(s.items, step.id).id == step.id;
    }
  }

  lemma WrittenNothing(s: State, step: Step, caps: Caps, d: Direction)
    requires IsEdit(step) && Edit(s, step).None?
    ensures Next(s, step, caps).items == s.items && !Promotes(s, step, d)
  {
  }

  lemma SlotsAfterEdit(s: State, step: Step, caps: Caps, d: Direction)
    requires Tidy(s) && Enabled(s, step) && IsEdit(step) && RunningCount(s.items, d) <= CapOf(caps, d)
    ensures RunningCount(Next(s, step, caps).items, d) <= CapOf(caps, d)
       <==> (Promotes(s, step, d) ==> RunningCount(s.items, d) < CapOf(caps, d))
  {
    if Edit(s, step).Some? {
      CountPut(s.items, Edit(s, step).value, d);
      GainsSlotIffPromotes(s, step, d);
      assert Next(s, step, caps).items == Put(s.items, Edit(s, step).value);
    } else {
      WrittenNothing(s, step, caps, d);
    }
  }

  /** Exactly when an edit keeps the slots within bounds. */
  lemma EditStaysWithinCapsIffItFits(s: State, step: Step, caps: Caps)
    requires Tidy(s) && WithinCaps(s, caps) && Enabled(s, step) && IsEdit(step)
    ensures WithinCaps(Next(s, step, caps), caps) <==> Fits(s, step, caps)
  {
    var t := Next(s, step, caps);
    forall d
      ensures RunningCount(t.items, d) <= CapOf(caps, d) <==> (Promotes(s, step, d) ==> RunningCount(s.items, d) < CapOf(caps, d))
    {
      SlotsAfterEdit(s, step, caps, d);
    }
  }

  lemma RemovalStaysWithinCaps(s: State, gone: set<Id>, caps: Caps)
    requires WithinCaps(s, caps)
    ensures WithinCaps(Removed(s, gone), caps)
  {
    forall d ensures RunningCount(Removed(s, gone).items, d) <= CapOf(caps, d) {
      CountWithout(s.items, gone, d);
    }
  }

  /** Exactly when a step keeps the slots within bounds. */
  lemma StepStaysWithinCapsIffItFits(s: State, step: Step, caps: Caps)
    requires Tidy(s) && WithinCaps(s, caps) && Enabled(s, step) && forall d :: CapOf(caps, d) >= 0
    ensures WithinCaps(Next(s, step, caps), caps) <==> Fits(s, step, caps)
  {
    if IsEdit(step) {
      EditStaysWithinCapsIffItFits(s, step, caps);
    } else {
      assert Fits(s, step, caps);
      if step.SchedulePass? {
        var t := OffersArePass(s, caps);
        PassStaysWithinCaps(t, caps, |s.items|);
      } else if step.ClearAll? {
        assert forall d :: RunningCount([], d) == 0;
      } else {
        RemovalStaysWithinCaps(s, if step.Remove? then step.gone else CompletedIds(s.items), caps);
      }
    }
  }

  // ------------------------------------------------------------------ every run

  lemma {:induction false} FittingStepsStayWithinCaps(states: seq<State>, steps: seq<Step>, caps: Caps, n: nat)
    requires IsRun(states, steps, caps) && n < |states| && forall d :: CapOf(caps, d) >= 0
    requires forall i :: 0 <= i < n ==> Fits(states[i], steps[i], caps)
    ensures WithinCaps(states[n], caps)
  {
    if n == 0 {
      assert forall d :: RunningCount([], d) == 0;
    } else {
      FittingStepsStayWithinCaps(states, steps, caps, n - 1);
      BooksBalance(states, steps, caps, n - 1);
      StepStaysWithinCapsIffItFits(states[n - 1], steps[n - 1], caps);
    }
  }

  /** Every state of a run is within the caps if and only if every step fits. */
  lemma SlotsHoldIffStepsFit(states: seq<State>, steps: seq<Step>, caps: Caps)
    requires IsRun(states, steps, caps) && forall d :: CapOf(caps, d) >= 0
    ensures (forall n :: 0 <= n < |states| ==> WithinCaps(states[n], caps))
       <==> (forall i :: 0 <= i < |steps| ==> Fits(states[i], steps[i], caps))
  {
    if forall i :: 0 <= i < |steps| ==> Fits(states[i], steps[i], caps) {
      forall n | 0 <= n < |states| ensures WithinCaps(states[n], caps) {
        FittingStepsStayWithinCaps(states, steps, caps, n);
      }
    }
    if forall n :: 0 <= n < |states| ==> WithinCaps(states[n], caps) {
      forall i | 0 <= i < |steps| ensures Fits(states[i], steps[i], caps) {
        BooksBalance(states, steps, caps, i);
        assert WithinCaps(states[i], caps) && WithinCaps(states[i + 1], caps);
        StepStaysWithinCapsIffItFits(states[i], steps[i], caps);
      }
    }
  }

  /**
   * The backend's part: it reports activity only for transfers that the front end does not hold as paused or queued, reports a
   * running transfer under its own direction, and does not report a start while the request is still waiting.
   */
  predicate BackendBehaves(s: State, step: Step) {
    IsReport(step) && Has(s.items, step.id) ==>
      var item := Get(s.items, step.id);
      && !item.status.Paused? && !item.status.Queued?
      && (step.BackendStarted? ==> step.direction == item.direction && step.id !in s.requests)
  }

  lemma BehavingBackendNeverPromotes(s: State, step: Step, d: Direction)
    requires Tidy(s) && BackendBehaves(s, step)
    ensures !Promotes(s, step, d)
  {
  }

  /** With fixed settings and a behaving backend, no reachable state runs more transfers of a direction than it has slots. */
  lemma SlotsAreNeverExceeded(states: seq<State>, steps: seq<Step>, caps: Caps, n: nat)
    requires IsRun(states, steps, caps) && n < |states| && forall d :: CapOf(caps, d) >= 0
    requires forall i :: 0 <= i < |steps| ==> BackendBehaves(states[i], steps[i])
    ensures WithinCaps(states[n], caps)
  {
    forall i | 0 <= i < |steps| ensures Fits(states[i], steps[i], caps) {
      BooksBalance(states, steps, caps, i);
      forall d ensures !Promotes(states[i], steps[i], d) {
        BehavingBackendNeverPromotes(states[i], steps[i], d);
      }
    }
    FittingStepsStayWithinCaps(states, steps, caps, n);
  }

  // ------------------------------------------------------------------ waiting requests

  /** Every request waits for a transfer that a pass can start, now or after a resume. */
  ghost predicate RequestsWait(s: State) {
    forall id :: id in s.requests ==> Has(s.items, id) && (Get(s.items, id).status.Queued? || Get(s.items, id).status.Paused?)
  }

  /** The step writes another status over a transfer whose request is waiting, and leaves the request. */
  predicate Strands(s: State, step: Step) {
    && (IsReport(step) || step.RejectStart? || step.RejectResume? || step.CancelSettled? || step.ExternalProgress? || step.ExternalFinished?)
    && step.id in s.requests
  }

  predicate Held(item: Item) { item.status.Queued? || item.status.Paused? }

  lemma GetAfterPut(items: seq<Item>, item: Item, id: Id)
    requires Has(items, id) && id != item.id
    ensures Has(Put(items, item), id) && Get(Put(items, item), id) == Get(items, id)
  {
    assert Put(items, item)[Position(items, id)] == items[Position(items, id)];
  }

  lemma GetPut(items: seq<Item>, item: Item)
    ensures Has(Put(items, item), item.id) && Get(Put(items, item), item.id) == item
  {
    assert Put(items, item)[Position(items, item.id)] == item;
  }

  lemma {:induction false} GetAfterWithout(items: seq<Item>, gone: set<Id>, id: Id)
    requires Has(items, id) && id !in gone
    ensures Has(Without(items, gone), id) && Get(Without(items, gone), id) == Get(items, id)
  {
    if items[0].id != id { GetAfterWithout(items[1..], gone, id); }
  }

  lemma StrandingEdit(s: State, step: Step)
    requires RequestsWait(s) && Enabled(s, step) && Strands(s, step)
    ensures Edit(s, step).Some? && Edit(s, step).value.id == step.id && !Held(Edit(s, step).value)
  {
    assert Has(s.items, step.id) && Held(Get(s.items, step.id));
  }

  lemma HarmlessEdit(s: State, step: Step, id: Id)
    requires Tidy(s) && RequestsWait(s) && Enabled(s, step) && IsEdit(step) && id in Refs(s, step).requests
    requires Edit(s, step).Some? && Edit(s, step).value.id == id && !Strands(s, step)
    ensures Held(Edit(s, step).value)
  {
    if !step.Enqueue? && !step.Retry? {
      assert id in s.requests && step.id == id;
    }
  }

  /** The edit concerns the requested transfer itself. */
  lemma EditOfRequested(s: State, step: Step, id: Id)
    requires Tidy(s) && RequestsWait(s) && Enabled(s, step) && IsEdit(step) && id in Refs(s, step).requests
    requires Edit(s, step).Some? && Edit(s, step).value.id == id
    ensures Held(Edit(s, step).value) <==> !(Strands(s, step) && step.id == id)
  {
    if Strands(s, step) {
      StrandingEdit(s, step);
    } else {
      HarmlessEdit(s, step, id);
    }
  }

  /** The edit concerns another transfer, or nothing is written. */
  lemma EditOfAnother(s: State, step: Step, id: Id)
    requires Tidy(s) && RequestsWait(s) && IsEdit(step) && id in Refs(s, step).requests
    requires Edit(s, step).None? || Edit(s, step).value.id != id
    ensures id in s.requests && !(Strands(s, step) && step.id == id)
  {
    if id in s.requests { assert Get(s.items, id).id == id; }
  }

  lemma EditKeepsRequest(s: State, step: Step, caps: Caps, id: Id)
    requires Tidy(s) && RequestsWait(s) && Enabled(s, step) && IsEdit(step) && id in Next(s, step, caps).requests
    ensures var t := Next(s, step, caps);
            Has(t.items, id) && (Held(Get(t.items, id)) <==> !(Strands(s, step) && step.id == id))
  {
    var edit := Edit(s, step);
    if edit.Some? && edit.value.id == id {
      EditOfRequested(s, step, id);
      GetPut(s.items, edit.value);
    } else {
      EditOfAnother(s, step, id);
      if edit.Some? { GetAfterPut(s.items, edit.value, id); }
    }
  }

  lemma StrandedStaysRequested(s: State, step: Step, caps: Caps)
    requires Strands(s, step)
    ensures IsEdit(step) && step.id in Next(s, step, caps).requests
  {
  }

  lemma EditKeepsWaitingIff(s: State, step: Step, caps: Caps)
    requires Tidy(s) && RequestsWait(s) && Enabled(s, step) && IsEdit(step)
    ensures RequestsWait(Next(s, step, caps)) <==> !Strands(s, step)
  {
    forall id | id in Next(s, step, caps).requests
      ensures var t := Next(s, step, caps); Has(t.items, id) && (Held(Get(t.items, id)) <==> !(Strands(s, step) && step.id == id))
    {
      EditKeepsRequest(s, step, caps, id);
    }
    if Strands(s, step) { StrandedStaysRequested(s, step, caps); }
  }

  lemma GetAfterUpdate(items: seq<Item>, i: nat, item: Item, id: Id)
    requires i < |items| && items[i].id == item.id && Has(items, id) && id != item.id
    ensures Has(items[i := item], id) && Get(items[i := item], id) == Get(items, id)
  {
    assert items[i := item][Position(items, id)] == items[Position(items, id)];
  }

  lemma OfferKeepsWaiting(s: State, i: nat, caps: Caps)
    requires i < |s.items| && Tidy(s) && RequestsWait(s)
    ensures RequestsWait(Consider(s, i, caps))
  {
    var t := Consider(s, i, caps);
    var item := s.items[i];
    forall id | id in t.requests && t.items != s.items
      ensures Has(t.items, id) && Get(t.items, id) == Get(s.items, id)
    {
      assert id in s.requests && id != item.id;
      GetAfterUpdate(s.items, i, Started(item), id);
    }
  }

  lemma {:induction false} PassKeepsWaiting(t: seq<State>, caps: Caps, n: nat)
    requires IsPass(t, caps) && n < |t| && Tidy(t[0]) && RequestsWait(t[0])
    ensures RequestsWait(t[n])
  {
    if n > 0 {
      PassKeepsWaiting(t, caps, n - 1);
      PassKeepsTidy(t, caps, n - 1);
      OfferKeepsWaiting(t[n - 1], n - 1, caps);
    }
  }

  lemma RemovalKeepsWaiting(s: State, gone: set<Id>)
    requires RequestsWait(s)
    ensures RequestsWait(Removed(s, gone))
  {
    forall id | id in Removed(s, gone).requests
      ensures Has(Removed(s, gone).items, id) && Get(Removed(s, gone).items, id) == Get(s.items, id)
    {
      GetAfterWithout(s.items, gone, id);
    }
  }

  /** Exactly when a step leaves every request servable. */
  lemma StepKeepsWaitingIff(s: State, step: Step, caps: Caps)
    requires Tidy(s) && RequestsWait(s) && Enabled(s, step)
    ensures RequestsWait(Next(s, step, caps)) <==> !Strands(s, step)
  {
    if IsEdit(step) {
      EditKeepsWaitingIff(s, step, caps);
    } else if step.SchedulePass? {
      var t := OffersArePass(s, caps);
      PassKeepsWaiting(t, caps, |s.items|);
    } else if !step.ClearAll? {
      RemovalKeepsWaiting(s, if step.Remove? then step.gone else CompletedIds(s.items));
    }
  }

  lemma {:induction false} UnstrandedRunsWait(states: seq<State>, steps: seq<Step>, caps: Caps, n: nat)
    requires IsRun(states, steps, caps) && n < |states| && forall i :: 0 <= i < n ==> !Strands(states[i], steps[i])
    ensures RequestsWait(states[n])
  {
    if n > 0 {
      UnstrandedRunsWait(states, steps, caps, n - 1);
      BooksBalance(states, steps, caps, n - 1);
      StepKeepsWaitingIff(states[n - 1], steps[n - 1], caps);
    }
  }

  /** On every run: every request stays servable throughout if and only if no step strands one. */
  lemma RequestsWaitIffNoneStranded(states: seq<State>, steps: seq<Step>, caps: Caps)
    requires IsRun(states, steps, caps)
    ensures (forall n :: 0 <= n < |states| ==> RequestsWait(states[n])) <==> (forall i :: 0 <= i < |steps| ==> !Strands(states[i], steps[i]))
  {
    if forall i :: 0 <= i < |steps| ==> !Strands(states[i], steps[i]) {
      forall n | 0 <= n < |states| ensures RequestsWait(states[n]) {
        UnstrandedRunsWait(states, steps, caps, n);
      }
    }
    if forall n :: 0 <= n < |states| ==> RequestsWait(states[n]) {
      forall i | 0 <= i < |steps| ensures !Strands(states[i], steps[i]) {
        BooksBalance(states, steps, caps, i);
        assert RequestsWait(states[i]) && RequestsWait(states[i + 1]);
        StepKeepsWaitingIff(states[i], steps[i], caps);
      }
    }
  }
}
