/** Runs of the transfer queue on which a report gives away a slot that is not free. */
module TransferOverruns {
  import opened Text
  import opened TransferQueue
  import opened TransferSlots

  const ONE_EACH := Caps(1, 1, 1)

  /** Reports are made only for transfers that are neither paused nor queued: not enough on its own. */
  predicate ReportsNoHeldTransfer(s: State, step: Step) {
    IsReport(step) && Has(s.items, step.id) ==> !Held(Get(s.items, step.id))
  }

  lemma CountTwo(x: Item, y: Item, d: Direction)
    ensures RunningCount([x, y], d) == Slot(x, d) + Slot(y, d)
  {
    assert [x, y][1..] == [y] && [y][1..] == [];
    assert RunningCount([], d) == 0;
  }

  lemma CountOne(x: Item, d: Direction)
    ensures RunningCount([x], d) == Slot(x, d)
  {
    assert [x][1..] == [];
    assert RunningCount([], d) == 0;
  }

  // ------------------------------------------------------------------ steps on one and two transfers

  lemma EnqueueFirst(s: State, a: Id, d: Direction) returns (t: State)
    requires s.items == []
    ensures t == Next(s, Enqueue(a, d), ONE_EACH) && Enabled(s, Enqueue(a, d))
    ensures t.items == [Item(a, d, Queued, Pending)] && t.requests == s.requests + {a} && t.parked == s.parked
  {
    t := Next(s, Enqueue(a, d), ONE_EACH);
  }

  lemma EnqueueSecond(s: State, x: Item, b: Id, d: Direction) returns (t: State)
    requires s.items == [x] && x.id != b
    ensures t == Next(s, Enqueue(b, d), ONE_EACH) && Enabled(s, Enqueue(b, d))
    ensures t.items == [x, Item(b, d, Queued, Pending)] && t.requests == s.requests + {b} && t.parked == s.parked
  {
    assert !Has(s.items, b);
    t := Next(s, Enqueue(b, d), ONE_EACH);
  }

  lemma PassOne(s: State, x: Item) returns (t: State)
    requires s.items == [x] && x.status.Queued? && x.id in s.requests && x.id !in s.parked
    ensures t == Next(s, SchedulePass, ONE_EACH) && t.items == [Started(x)] && t.requests == s.requests - {x.id} && t.parked == s.parked
  {
    CountOne(x, x.direction);
    t := Consider(s, 0, ONE_EACH);
    assert Offers(s, ONE_EACH, 0) == [s];
    assert Offers(s, ONE_EACH, 1) == [s] + [t];
  }

  lemma PassTwo(s: State, u: State, t: State)
    requires |s.items| == 2 && u == Consider(s, 0, ONE_EACH) && t == Consider(u, 1, ONE_EACH)
    ensures t == Next(s, SchedulePass, ONE_EACH)
  {
    assert Offers(s, ONE_EACH, 0) == [s];
    assert Offers(s, ONE_EACH, 1) == [s] + [u];
    assert Offers(s, ONE_EACH, 2) == [s] + [u] + [t];
  }

  /** Two queued transfers of one direction: the first takes the slot. */
  lemma PassTakesFirst(s: State, x: Item, y: Item) returns (t: State)
    requires s.items == [x, y] && x.id != y.id && x.status.Queued? && y.status.Queued? && x.direction == y.direction
    requires x.id in s.requests && x.id !in s.parked
    ensures t == Next(s, SchedulePass, ONE_EACH) && t.items == [Started(x), y] && t.requests == s.requests - {x.id} && t.parked == s.parked
  {
    CountTwo(x, y, x.direction);
    var u := Consider(s, 0, ONE_EACH);
    assert u.items == [Started(x), y];
    CountTwo(Started(x), y, x.direction);
    t := Consider(u, 1, ONE_EACH);
    PassTwo(s, u, t);
  }

  /** Two queued transfers of different directions: both start. */
  lemma PassTakesBoth(s: State, x: Item, y: Item) returns (t: State)
    requires s.items == [x, y] && x.id != y.id && x.status.Queued? && y.status.Queued? && x.direction != y.direction
    requires x.id in s.requests && y.id in s.requests && s.parked == {}
    ensures t == Next(s, SchedulePass, ONE_EACH) && t.items == [Started(x), Started(y)]
  {
    CountTwo(x, y, x.direction);
    var u := Consider(s, 0, ONE_EACH);
    assert u.items == [Started(x), y];
    CountTwo(Started(x), y, y.direction);
    t := Consider(u, 1, ONE_EACH);
    assert t.items == [Started(x), Started(y)];
    PassTwo(s, u, t);
  }

  /** A first transfer that holds no slot and cannot start: the second takes the slot. */
  lemma PassTakesSecond(s: State, x: Item, y: Item) returns (t: State)
    requires s.items == [x, y] && x.id != y.id && !x.status.Queued? && !x.status.Transferring? && y.status.Queued?
    requires y.id in s.requests && y.id !in s.parked
    ensures t == Next(s, SchedulePass, ONE_EACH) && t.items == [x, Started(y)] && t.requests == s.requests - {y.id} && t.parked == s.parked
  {
    CountTwo(x, y, y.direction);
    var u := Consider(s, 0, ONE_EACH);
    t := Consider(u, 1, ONE_EACH);
    PassTwo(s, u, t);
  }

  /** An edit of the first transfer. */
  lemma EditFirst(s: State, step: Step, x: Item, rest: seq<Item>, edited: Item) returns (t: State)
    requires s.items == [x] + rest && IsEdit(step) && Edit(s, step) == Some(edited) && edited.id == x.id
    ensures t == Next(s, step, ONE_EACH) && t.items == [edited] + rest
    ensures t.requests == Refs(s, step).requests && t.parked == Refs(s, step).parked
  {
    assert Position(s.items, x.id) == 0;
    t := Next(s, step, ONE_EACH);
  }

  lemma PauseFirst(s: State, x: Item, rest: seq<Item>) returns (t: State)
    requires s.items == [x] + rest
    ensures t == Next(s, BackendPaused(x.id), ONE_EACH) && t.items == [x.(status := Paused)] + rest
    ensures t.requests == s.requests && t.parked == s.parked
  {
    assert Position(s.items, x.id) == 0;
    t := EditFirst(s, BackendPaused(x.id), x, rest, x.(status := Paused));
  }

  lemma ProgressFirst(s: State, x: Item, rest: seq<Item>) returns (t: State)
    requires s.items == [x] + rest
    ensures t == Next(s, BackendProgress(x.id), ONE_EACH) && t.items == [x.(status := Transferring)] + rest
  {
    assert Position(s.items, x.id) == 0;
    t := EditFirst(s, BackendProgress(x.id), x, rest, x.(status := Transferring));
  }

  lemma StartFirst(s: State, x: Item, rest: seq<Item>, d: Direction) returns (t: State)
    requires s.items == [x] + rest
    ensures t == Next(s, BackendStarted(x.id, d), ONE_EACH) && t.items == [StartedEdit(s, x, d)] + rest
  {
    assert Position(s.items, x.id) == 0;
    t := EditFirst(s, BackendStarted(x.id, d), x, rest, StartedEdit(s, x, d));
  }

  lemma CancelFirst(s: State, x: Item, rest: seq<Item>) returns (t: State)
    requires s.items == [x] + rest && !x.status.Completed? && !x.status.Failed?
    ensures t == Next(s, CancelConfirmed(x.id), ONE_EACH) && t.items == [x.(status := Cancelled, queueState := Unmanaged)] + rest
    ensures t.requests == s.requests - {x.id} && t.parked == s.parked - {x.id}
  {
    assert Position(s.items, x.id) == 0;
    t := EditFirst(s, CancelConfirmed(x.id), x, rest, x.(status := Cancelled, queueState := Unmanaged));
  }

  lemma RetryFirst(s: State, x: Item, rest: seq<Item>) returns (t: State)
    requires s.items == [x] + rest
    ensures t == Next(s, Retry(x), ONE_EACH) && t.items == [x.(status := Queued, queueState := Pending)] + rest
    ensures t.requests == s.requests + {x.id} && t.parked == s.parked - {x.id}
  {
    t := EditFirst(s, Retry(x), x, rest, x.(status := Queued, queueState := Pending));
  }

  lemma RejectFirst(s: State, x: Item, rest: seq<Item>) returns (t: State)
    requires s.items == [x] + rest && !Finished(x.status)
    ensures t == Next(s, RejectStart(x.id), ONE_EACH) && t.items == [x.(status := Failed, queueState := Unmanaged)] + rest
    ensures t.requests == s.requests && t.parked == s.parked
  {
    assert Position(s.items, x.id) == 0;
    t := EditFirst(s, RejectStart(x.id), x, rest, x.(status := Failed, queueState := Unmanaged));
  }

  lemma TwoRunningIsTooMany(s: State, x: Item, y: Item, d: Direction)
    requires s.items == [x, y] && IsRunning(x, d) && IsRunning(y, d)
    ensures !WithinCaps(s, ONE_EACH)
  {
    CountTwo(x, y, d);
  }

  // ------------------------------------------------------------------ the runs

  /** `states` is what `steps` does from the initial state. */
  ghost predicate Follows(states: seq<State>, steps: seq<Step>) {
    && |states| == |steps| + 1 && states[0] == Initial()
    && forall i :: 0 <= i < |steps| ==> states[i + 1] == Next(states[i], steps[i], ONE_EACH)
  }

  lemma {:induction false} StatesOf(steps: seq<Step>) returns (states: seq<State>)
    ensures Follows(states, steps)
    decreases |steps|
  {
    if steps == [] {
      states := [Initial()];
    } else {
      var n := |steps| - 1;
      var before := StatesOf(steps[..n]);
      states := before + [Next(before[n], steps[n], ONE_EACH)];
      FollowsMore(before, steps[..n], steps[n], states);
      assert steps[..n] + [steps[n]] == steps;
    }
  }

  lemma FollowsMore(before: seq<State>, steps: seq<Step>, step: Step, states: seq<State>)
    requires Follows(before, steps) && states == before + [Next(before[|steps|], step, ONE_EACH)]
    ensures Follows(states, steps + [step])
  {
    var all := steps + [step];
    forall i | 0 <= i < |all| ensures states[i + 1] == Next(states[i], all[i], ONE_EACH) {
      assert states[i] == before[i];
      if i < |steps| { assert states[i + 1] == before[i + 1] && all[i] == steps[i]; }
    }
  }

  lemma NextState(steps: seq<Step>, states: seq<State>, i: nat, s: State, t: State)
    requires Follows(states, steps) && i < |steps| && s == states[i] && t == Next(s, steps[i], ONE_EACH)
    ensures t == states[i + 1]
  {
  }

  /**
   * A stray progress report: `a` runs and is paused, its slot goes to `b`, and a late progress report for `a` makes two uploads run
   * with one slot.
   */
  lemma StrayProgressOverfills(a: Id, b: Id, steps: seq<Step>) returns (states: seq<State>)
    requires a != b && IsStray(a, b, steps)
    ensures IsRun(states, steps, ONE_EACH) && !WithinCaps(states[6], ONE_EACH)
    ensures forall i :: 0 <= i < 5 ==> BackendBehaves(states[i], steps[i])
  {
    states := StatesOf(steps);
    StrayKinds(a, b, steps);
    var x, y := Item(a, Upload, Queued, Pending), Item(b, Upload, Queued, Pending);
    TwoEnqueued(states, steps, x, y);
    var s3 := PassTakesFirst(states[2], x, y);
    NextState(steps, states, 2, states[2], s3);
    StrayTail(s3, steps, states, Started(x), y);
    OnlyEnqueuesNeedCare(states, steps, 0, 1);
  }

  predicate IsStray(a: Id, b: Id, steps: seq<Step>) {
    && |steps| == 6 && steps[0] == Enqueue(a, Upload) && steps[1] == Enqueue(b, Upload) && steps[2] == SchedulePass
    && steps[3] == BackendPaused(a) && steps[4] == SchedulePass && steps[5] == BackendProgress(a)
  }

  lemma StrayKinds(a: Id, b: Id, steps: seq<Step>)
    requires IsStray(a, b, steps)
    ensures forall k :: 0 <= k < |steps| && k != 0 && k != 1 ==> AlwaysEnabled(steps[k])
    ensures forall k :: 0 <= k < 5 ==> !IsReport(steps[k])
  {
  }

  lemma TwoEnqueued(states: seq<State>, steps: seq<Step>, x: Item, y: Item)
    requires Follows(states, steps) && |steps| >= 2 && steps[0] == Enqueue(x.id, x.direction) && steps[1] == Enqueue(y.id, y.direction)
    requires x.id != y.id && x.status.Queued? && y.status.Queued? && x.queueState.Pending? && y.queueState.Pending?
    ensures Enabled(states[0], steps[0]) && Enabled(states[1], steps[1])
    ensures states[2].items == [x, y] && states[2].requests == {x.id, y.id} && states[2].parked == {}
  {
    var s1 := EnqueueFirst(states[0], x.id, x.direction);
    NextState(steps, states, 0, states[0], s1);
    var s2 := EnqueueSecond(s1, x, y.id, y.direction);
    NextState(steps, states, 1, s1, s2);
  }

  lemma StrayTail(s3: State, steps: seq<Step>, states: seq<State>, x: Item, y: Item)
    requires Follows(states, steps) && |steps| == 6 && s3 == states[3] && x.id != y.id
    requires steps[3] == BackendPaused(x.id) && steps[4] == SchedulePass && steps[5] == BackendProgress(x.id)
    requires s3.items == [x] + [y] && y.status.Queued? && y.id in s3.requests && y.id !in s3.parked
    requires x.status.Transferring? && x.queueState.Running? && x.direction == y.direction
    ensures !WithinCaps(states[6], ONE_EACH)
  {
    var paused := x.(status := Paused);
    var s4 := PauseFirst(s3, x, [y]);
    NextState(steps, states, 3, s3, s4);
    var s5 := PassTakesSecond(s4, paused, y);
    NextState(steps, states, 4, s4, s5);
    var s6 := ProgressFirst(s5, paused, [Started(y)]);
    NextState(steps, states, 5, s5, s6);
    TwoRunningIsTooMany(s6, x, Started(y), x.direction);
  }

  /** A start reported under another direction: `a` uploads, `b` downloads, and the report turns `a` into a second download. */
  lemma RedirectedStartOverfills(a: Id, b: Id, steps: seq<Step>) returns (states: seq<State>)
    requires a != b && steps == [Enqueue(a, Upload), Enqueue(b, Download), SchedulePass, BackendStarted(a, Download)]
    ensures IsRun(states, steps, ONE_EACH) && !WithinCaps(states[4], ONE_EACH)
    ensures forall i :: 0 <= i < 4 ==> ReportsNoHeldTransfer(states[i], steps[i])
  {
    states := StatesOf(steps);
    var x, y := Item(a, Upload, Queued, Pending), Item(b, Download, Queued, Pending);
    TwoEnqueued(states, steps, x, y);
    var s3 := PassTakesBoth(states[2], x, y);
    NextState(steps, states, 2, states[2], s3);
    assert Position(s3.items, a) == 0;
    var s4 := StartFirst(s3, Started(x), [Started(y)], Download);
    NextState(steps, states, 3, s3, s4);
    TwoRunningIsTooMany(s4, Started(x).(direction := Download), Started(y), Download);
  }

  /**
   * A retry that races a rejected start: `a` runs, is cancelled and retried; the first start call is rejected only now and marks the
   * retried transfer as failed while its request stays; `b` gets the slot; a late start report for `a` makes two uploads run.
   */
  lemma StaleStartOverfills(a: Id, b: Id, steps: seq<Step>) returns (states: seq<State>)
    requires a != b && IsStale(a, b, steps)
    ensures IsRun(states, steps, ONE_EACH) && !WithinCaps(states[8], ONE_EACH)
    ensures forall i :: 0 <= i < 8 ==> ReportsNoHeldTransfer(states[i], steps[i])
    ensures Strands(states[4], steps[4]) && !RequestsWait(states[5])
  {
    states := StatesOf(steps);
    StaleHead(a, steps, states);
    StaleTail(states[5], a, b, steps, states);
    StaleKinds(a, b, steps);
    OnlyEnqueuesNeedCare(states, steps, 0, 5);
    OnlyReport(states, steps, 7);
  }

  predicate IsStale(a: Id, b: Id, steps: seq<Step>) {
    && |steps| == 8 && steps[0] == Enqueue(a, Upload) && steps[1] == SchedulePass && steps[2] == CancelConfirmed(a)
    && steps[3] == Retry(Item(a, Upload, Cancelled, Unmanaged)) && steps[4] == RejectStart(a)
    && steps[5] == Enqueue(b, Upload) && steps[6] == SchedulePass && steps[7] == BackendStarted(a, Upload)
  }

  predicate AlwaysEnabled(step: Step) { !step.Enqueue? && !step.BackendFinished? && !step.ExternalFinished? }

  lemma StaleKinds(a: Id, b: Id, steps: seq<Step>)
    requires IsStale(a, b, steps)
    ensures forall k :: 0 <= k < |steps| && k != 0 && k != 5 ==> AlwaysEnabled(steps[k])
    ensures forall k :: 0 <= k < |steps| && k != 7 ==> !IsReport(steps[k])
  {
  }

  /** Of the steps of these runs only an enqueue can be disabled. */
  lemma OnlyEnqueuesNeedCare(states: seq<State>, steps: seq<Step>, i: nat, j: nat)
    requires Follows(states, steps) && i < |steps| && j < |steps| && Enabled(states[i], steps[i]) && Enabled(states[j], steps[j])
    requires forall k :: 0 <= k < |steps| && k != i && k != j ==> AlwaysEnabled(steps[k])
    ensures IsRun(states, steps, ONE_EACH)
  {
  }

  lemma OnlyReport(states: seq<State>, steps: seq<Step>, n: nat)
    requires n < |steps| < |states| && ReportsNoHeldTransfer(states[n], steps[n])
    requires forall k :: 0 <= k < |steps| && k != n ==> !IsReport(steps[k])
    ensures forall i :: 0 <= i < |steps| ==> ReportsNoHeldTransfer(states[i], steps[i])
  {
  }

  lemma StaleHead(a: Id, steps: seq<Step>, states: seq<State>)
    requires Follows(states, steps) && |steps| == 8
    requires steps[0] == Enqueue(a, Upload) && steps[1] == SchedulePass && steps[2] == CancelConfirmed(a)
    requires steps[3] == Retry(Item(a, Upload, Cancelled, Unmanaged)) && steps[4] == RejectStart(a)
    ensures Enabled(states[0], steps[0]) && a in states[4].requests
    ensures states[5].items == [Item(a, Upload, Failed, Unmanaged)] && states[5].requests == {a} && states[5].parked == {}
  {
    var x, cancelled := Item(a, Upload, Queued, Pending), Item(a, Upload, Cancelled, Unmanaged);
    var s1 := EnqueueFirst(states[0], a, Upload);
    NextState(steps, states, 0, states[0], s1);
    var s2 := PassOne(s1, x);
    NextState(steps, states, 1, s1, s2);
    var s3 := CancelFirst(s2, Started(x), []);
    NextState(steps, states, 2, s2, s3);
    var s4 := RetryFirst(s3, cancelled, []);
    NextState(steps, states, 3, s3, s4);
    var s5 := RejectFirst(s4, x, []);
    NextState(steps, states, 4, s4, s5);
  }

  lemma StaleTail(s5: State, a: Id, b: Id, steps: seq<Step>, states: seq<State>)
    requires a != b && |steps| == 8 && Follows(states, steps) && states[5] == s5 && s5.requests == {a} && s5.parked == {}
    requires steps[5] == Enqueue(b, Upload) && steps[6] == SchedulePass && steps[7] == BackendStarted(a, Upload)
    requires s5.items == [Item(a, Upload, Failed, Unmanaged)]
    ensures !WithinCaps(states[8], ONE_EACH) && !RequestsWait(s5) && Enabled(s5, steps[5])
    ensures ReportsNoHeldTransfer(states[7], steps[7])
  {
    var failed, y := Item(a, Upload, Failed, Unmanaged), Item(b, Upload, Queued, Pending);
    assert Position(s5.items, a) == 0;
    var s6 := EnqueueSecond(s5, failed, b, Upload);
    NextState(steps, states, 5, s5, s6);
    var s7 := PassTakesSecond(s6, failed, y);
    NextState(steps, states, 6, s6, s7);
    assert Position(s7.items, a) == 0;
    var s8 := StartFirst(s7, failed, [Started(y)], Upload);
    NextState(steps, states, 7, s7, s8);
    TwoRunningIsTooMany(s8, Item(a, Upload, Transferring, Running), Started(y), Upload);
  }
}
