/** Commands for child windows, held back until the window's listener is ready (src/lib/childWindowCommandQueue.ts). */
module ChildWindowCommandQueue {

  /** Labels, ready tokens and command names are only ever compared. */
  type Label(==, !new)
  type Token(==, !new)
  type Name(==, !new)

  datatype Envelope<P> = Envelope(event: Name, payload: P)

  datatype Status = Loading | Ready | Failed

  datatype Entry<P> = Entry(token: Token, expected: Name, status: Status, pending: seq<Envelope<P>>)

  type States<P> = map<Label, Entry<P>>

  // ------------------------------------------------------------------ the operations on values

  predicate Registered<P>(m: States<P>, window: Label, token: Token, expected: Name) {
    window in m && m[window].token == token && m[window].expected == expected
  }

  predicate Signals<P>(m: States<P>, window: Label, token: Token) {
    window in m && m[window].token == token
  }

  function AfterRegister<P>(m: States<P>, window: Label, token: Token, expected: Name): States<P> {
    if Registered(m, window, token, expected) then m else m[window := Entry(token, expected, Loading, [])]
  }

  predicate GoesThrough<P>(m: States<P>, window: Label, event: Name) {
    window !in m || m[window].expected != event || m[window].status.Ready?
  }

  function AfterDispatch<P>(m: States<P>, window: Label, command: Envelope<P>): States<P> {
    if GoesThrough(m, window, command.event) || m[window].status.Failed? then m
    else m[window := m[window].(pending := m[window].pending + [command])]
  }

  function SentByDispatch<P>(m: States<P>, window: Label, command: Envelope<P>): seq<Envelope<P>> {
    if GoesThrough(m, window, command.event) then [command] else []
  }

  function AfterReady<P>(m: States<P>, window: Label, token: Token, event: Name): States<P> {
    if Registered(m, window, token, event) then m[window := m[window].(status := Ready, pending := [])] else m
  }

  function SentByReady<P>(m: States<P>, window: Label, token: Token, event: Name): seq<Envelope<P>> {
    if Registered(m, window, token, event) then m[window].pending else []
  }

  function AfterLoading<P>(m: States<P>, window: Label, token: Token): States<P> {
    if Signals(m, window, token) && !m[window].status.Failed? then m[window := m[window].(status := Loading)] else m
  }

  function AfterFailed<P>(m: States<P>, window: Label, token: Token): States<P> {
    if Signals(m, window, token) then m[window := m[window].(status := Failed, pending := [])] else m
  }

  // ------------------------------------------------------------------ the class

  class Queue<P> {
    var states: States<P>

    constructor ()
      ensures states == map[]
    {
      states := map[];
    }

    method Register(window: Label, token: Token, expected: Name)
      modifies this
      ensures states == AfterRegister(old(states), window, token, expected)
    {
      if window in states && states[window].token == token && states[window].expected == expected { return; }
      states := states[window := Entry(token, expected, Loading, [])];
    }

    method Dispatch(window: Label, event: Name, payload: P) returns (sent: seq<Envelope<P>>)
      modifies this
      ensures states == AfterDispatch(old(states), window, Envelope(event, payload))
      ensures sent == SentByDispatch(old(states), window, Envelope(event, payload))
    {
      var command := Envelope(event, payload);
      if window !in states || states[window].expected != event || states[window].status == Ready {
        return [command];
      }
      if states[window].status == Failed { return []; }
      states := states[window := states[window].(pending := states[window].pending + [command])];
      return [];
    }

    method MarkReady(window: Label, token: Token, event: Name) returns (sent: seq<Envelope<P>>)
      modifies this
      ensures states == AfterReady(old(states), window, token, event)
      ensures sent == SentByReady(old(states), window, token, event)
    {
      if window !in states || states[window].token != token || states[window].expected != event { return []; }
      sent := states[window].pending;
      states := states[window := states[window].(status := Ready, pending := [])];
    }

    method MarkLoading(window: Label, token: Token) returns (accepted: bool)
      modifies this
      ensures states == AfterLoading(old(states), window, token)
      ensures accepted <==> Signals(old(states), window, token) && !old(states)[window].status.Failed?
    {
      if window !in states || states[window].token != token { return false; }
      if states[window].status == Failed { return false; }
      states := states[window := states[window].(status := Loading)];
      return true;
    }

    method MarkFailed(window: Label, token: Token) returns (accepted: bool)
      modifies this
      ensures states == AfterFailed(old(states), window, token)
      ensures accepted <==> Signals(old(states), window, token)
    {
      if window !in states || states[window].token != token { return false; }
      states := states[window := states[window].(status := Failed, pending := [])];
      return true;
    }

    method Clear(window: Label)
      modifies this
      ensures states == old(states) - {window}
    {
      states := states - {window};
    }
  }

  // ------------------------------------------------------------------ whole runs

  /** One log line; payloads are serial numbers of dispatches, so equal lines are the same command. */
  datatype Line = Line(window: Label, event: Name, serial: nat)

  /** When the current registration of a window began, and whether it has failed since. */
  datatype Epoch = Epoch(dispatched: nat, delivered: nat, failed: bool)

  datatype System = System(
    states: States<nat>, dispatched: seq<Line>, delivered: seq<Line>, epochs: map<Label, Epoch>)

  datatype Step =
    | Register(window: Label, token: Token, expected: Name)
    | Dispatch(window: Label, event: Name)
    | MarkReady(window: Label, token: Token, event: Name)
    | MarkLoading(window: Label, token: Token)
    | MarkFailed(window: Label, token: Token)
    | Clear(window: Label)

  function Lines(window: Label, sent: seq<Envelope<nat>>): seq<Line> {
    seq(|sent|, i requires 0 <= i < |sent| => Line(window, sent[i].event, sent[i].payload))
  }

  function Next(s: System, step: Step): System {
    match step
    case Register(w, token, expected) =>
      s.(states := AfterRegister(s.states, w, token, expected),
         epochs := if Registered(s.states, w, token, expected) then s.epochs
                   else s.epochs[w := Epoch(|s.dispatched|, |s.delivered|, false)])
    case Dispatch(w, event) =>
      var command := Envelope(event, |s.dispatched|);
      s.(states := AfterDispatch(s.states, w, command),
         dispatched := s.dispatched + [Line(w, event, |s.dispatched|)],
         delivered := s.delivered + Lines(w, SentByDispatch(s.states, w, command)))
    case MarkReady(w, token, event) =>
      s.(states := AfterReady(s.states, w, token, event),
         delivered := s.delivered + Lines(w, SentByReady(s.states, w, token, event)))
    case MarkLoading(w, token) => s.(states := AfterLoading(s.states, w, token))
    case MarkFailed(w, token) =>
      s.(states := AfterFailed(s.states, w, token),
         epochs := if Signals(s.states, w, token) && w in s.epochs then s.epochs[w := s.epochs[w].(failed := true)] else s.epochs)
    case Clear(w) => s.(states := s.states - {w})
  }

  function Initial(): System { System(map[], [], [], map[]) }

  predicate IsRun(history: seq<System>, steps: seq<Step>) {
    && |history| == |steps| + 1 && history[0] == Initial()
    && forall i :: 0 <= i < |steps| ==> history[i + 1] == Next(history[i], steps[i])
  }

  /** The serial numbers of the lines for one window and command name, in log order. */
  function Serials(log: seq<Line>, window: Label, event: Name): seq<nat> {
    if log == [] then []
    else
      var last := log[|log| - 1];
      var before := Serials(log[..|log| - 1], window, event);
      if last.window == window && last.event == event then before + [last.serial] else before
  }

  function Payloads(pending: seq<Envelope<nat>>): seq<nat> {
    seq(|pending|, i requires 0 <= i < |pending| => pending[i].payload)
  }

  predicate Increasing(s: seq<nat>) {
    forall i, j :: 0 <= i < j < |s| ==> s[i] < s[j]
  }

  /** Pending commands are expected ones, and a window that is ready or failed has none. */
  predicate EntryHolds(e: Entry<nat>) {
    && (forall i :: 0 <= i < |e.pending| ==> e.pending[i].event == e.expected)
    && (!e.status.Loading? ==> e.pending == [])
  }

  function PendingFor(s: System, window: Label, event: Name): seq<nat> {
    if window in s.states && s.states[window].expected == event then Payloads(s.states[window].pending) else []
  }

  function Account(s: System, window: Label, event: Name): seq<nat> {
    Serials(s.delivered, window, event) + PendingFor(s, window, event)
  }

  /** Delivered, then pending: strictly increasing serials, all of them dispatched. */
  predicate OrderHolds(s: System, window: Label, event: Name) {
    InDispatchOrder(Account(s, window, event), s.dispatched, window, event)
  }

  predicate InDispatchOrder(all: seq<nat>, dispatched: seq<Line>, window: Label, event: Name) {
    && Increasing(all)
    && forall i :: 0 <= i < |all| ==> all[i] < |dispatched| && dispatched[all[i]] == Line(window, event, all[i])
  }

  /** Since its registration and without a failure, what was dispatched to a window is what was delivered plus what is pending. */
  predicate EpochHolds(s: System, window: Label) {
    window in s.states ==>
      && window in s.epochs
      && s.epochs[window].dispatched <= |s.dispatched| && s.epochs[window].delivered <= |s.delivered|
      && (s.states[window].status.Failed? ==> s.epochs[window].failed)
      && (!s.epochs[window].failed ==>
            var e := s.states[window].expected;
            Serials(s.dispatched[s.epochs[window].dispatched..], window, e)
            == Serials(s.delivered[s.epochs[window].delivered..], window, e) + Payloads(s.states[window].pending))
  }

  ghost predicate Invariant(s: System) {
    && (forall w :: w in s.states ==> EntryHolds(s.states[w]))
    && (forall w, e :: OrderHolds(s, w, e))
    && (forall w :: EpochHolds(s, w))
  }

  lemma {:induction false} SerialsAppend(a: seq<Line>, b: seq<Line>, window: Label, event: Name)
    ensures Serials(a + b, window, event) == Serials(a, window, event) + Serials(b, window, event)
  {
    if b == [] {
      assert a + b == a;
    } else {
      SerialsAppend(a, b[..|b| - 1], window, event);
      assert (a + b)[..|a + b| - 1] == a + b[..|b| - 1];
    }
  }

  lemma {:induction false} SerialsOfLines(window: Label, sent: seq<Envelope<nat>>, w: Label, event: Name, sole: Name)
    requires forall i :: 0 <= i < |sent| ==> sent[i].event == sole
    ensures Serials(Lines(window, sent), w, event) == if w == window && event == sole then Payloads(sent) else []
  {
    if sent != [] {
      var before := sent[..|sent| - 1];
      SerialsOfLines(window, before, w, event, sole);
      assert Lines(window, sent)[..|sent| - 1] == Lines(window, before);
      assert Payloads(sent) == Payloads(before) + [sent[|sent| - 1].payload];
    }
  }

  lemma SuffixOfAppend<T>(a: seq<T>, b: seq<T>, n: nat)
    requires n <= |a|
    ensures (a + b)[n..] == a[n..] + b
  {
  }

  // ------------------------------------------------------------------ steps

  lemma PrefixIsInOrder(all: seq<nat>, was: seq<nat>, dispatched: seq<Line>, window: Label, event: Name)
    requires all <= was && InDispatchOrder(was, dispatched, window, event)
    ensures InDispatchOrder(all, dispatched, window, event)
  {
    assert forall i :: 0 <= i < |all| ==> all[i] == was[i];
  }

  lemma SentThenPendingIsPrefix(done: seq<nat>, sent: seq<nat>, pending: seq<nat>, was: seq<nat>)
    requires sent + pending <= was
    ensures done + sent + pending <= done + was
  {
    assert done + sent + pending == done + (sent + pending);
  }

  /** What a step sends, and to whom: at most one window, one command name. */
  lemma DeliveryKeepsOrder(s: System, t: System, window: Label, sole: Name, sent: seq<Envelope<nat>>, w: Label, e: Name)
    requires OrderHolds(s, w, e) && t.dispatched == s.dispatched && t.delivered == s.delivered + Lines(window, sent)
    requires forall i :: 0 <= i < |sent| ==> sent[i].event == sole
    requires if w == window && e == sole then Payloads(sent) + PendingFor(t, w, e) <= PendingFor(s, w, e)
             else PendingFor(t, w, e) <= PendingFor(s, w, e)
    ensures OrderHolds(t, w, e)
  {
    SerialsAppend(s.delivered, Lines(window, sent), w, e);
    SerialsOfLines(window, sent, w, e, sole);
    var mine, pending, was := Serials(Lines(window, sent), w, e), PendingFor(t, w, e), PendingFor(s, w, e);
    assert mine + pending <= was by {
      if mine == [] { assert mine + pending == pending; }
    }
    SentThenPendingIsPrefix(Serials(s.delivered, w, e), mine, pending, was);
    PrefixIsInOrder(Account(t, w, e), Account(s, w, e), s.dispatched, w, e);
  }

  lemma ReadySendsPending(s: System, step: Step, w: Label, e: Name)
    requires step.MarkReady? && forall x :: x in s.states ==> EntryHolds(s.states[x])
    ensures var sent := SentByReady(s.states, step.window, step.token, step.event);
            var now, was := PendingFor(Next(s, step), w, e), PendingFor(s, w, e);
            && (forall i :: 0 <= i < |sent| ==> sent[i].event == step.event)
            && if w == step.window && e == step.event then Payloads(sent) + now <= was else now <= was
  {
    assert Payloads([]) == [];
  }

  lemma QuietShrinksPending(s: System, step: Step, w: Label, e: Name)
    requires !step.Dispatch? && !step.MarkReady?
    ensures var t := Next(s, step);
            && t.dispatched == s.dispatched && t.delivered == s.delivered && PendingFor(t, w, e) <= PendingFor(s, w, e)
  {
    assert Payloads([]) == [];
  }

  lemma SignalKeepsOrder(s: System, step: Step, w: Label, e: Name)
    requires !step.Dispatch? && OrderHolds(s, w, e)
    requires forall x :: x in s.states ==> EntryHolds(s.states[x])
    ensures OrderHolds(Next(s, step), w, e)
  {
    if step.MarkReady? {
      ReadySendsPending(s, step, w, e);
      var sent := SentByReady(s.states, step.window, step.token, step.event);
      DeliveryKeepsOrder(s, Next(s, step), step.window, step.event, sent, w, e);
    } else {
      QuietShrinksPending(s, step, w, e);
      PrefixIsInOrder(Account(Next(s, step), w, e), Account(s, w, e), s.dispatched, w, e);
    }
  }

  lemma DispatchSends(s: System, step: Step, w: Label, e: Name)
    requires step.Dispatch?
    ensures var hit := w == step.window && e == step.event && GoesThrough(s.states, w, e);
            var was := Serials(s.delivered, w, e);
            Serials(Next(s, step).delivered, w, e) == if hit then was + [|s.dispatched|] else was
  {
    var n: nat := |s.dispatched|;
    var command: Envelope<nat> := Envelope(step.event, n);
    var sent := SentByDispatch(s.states, step.window, command);
    SerialsAppend(s.delivered, Lines(step.window, sent), w, e);
    SerialsOfLines(step.window, sent, w, e, step.event);
    assert Payloads([command]) == [|s.dispatched|] && Payloads([]) == [];
  }

  lemma DispatchDefers(s: System, step: Step, w: Label, e: Name)
    requires step.Dispatch?
    ensures var hit := w == step.window && e == step.event && !GoesThrough(s.states, w, e) && !s.states[w].status.Failed?;
            var was := PendingFor(s, w, e);
            PendingFor(Next(s, step), w, e) == if hit then was + [|s.dispatched|] else was
  {
    var n: nat := |s.dispatched|;
    var command: Envelope<nat> := Envelope(step.event, n);
    if w == step.window && e == step.event && w in s.states {
      assert Payloads(s.states[w].pending + [command]) == Payloads(s.states[w].pending) + [|s.dispatched|];
    }
  }

  lemma ReadyHasNothingPending(s: System, w: Label, e: Name)
    requires w in s.states ==> EntryHolds(s.states[w])
    requires GoesThrough(s.states, w, e)
    ensures PendingFor(s, w, e) == []
  {
  }

  /** A dispatch adds its command to the end of one account at most. */
  lemma DispatchExtendsAccount(s: System, step: Step, w: Label, e: Name)
    requires step.Dispatch? && forall x :: x in s.states ==> EntryHolds(s.states[x])
    ensures var n := |s.dispatched|;
            || Account(Next(s, step), w, e) == Account(s, w, e)
            || (w == step.window && e == step.event && Account(Next(s, step), w, e) == Account(s, w, e) + [n])
  {
    DispatchSends(s, step, w, e);
    DispatchDefers(s, step, w, e);
    if GoesThrough(s.states, w, e) {
      ReadyHasNothingPending(s, w, e);
    }
    var t := Next(s, step);
    OneMore(Serials(s.delivered, w, e), PendingFor(s, w, e), Serials(t.delivered, w, e), PendingFor(t, w, e), |s.dispatched|);
  }

  lemma OneMore(done: seq<nat>, pending: seq<nat>, done': seq<nat>, pending': seq<nat>, n: nat)
    requires if done' == done then pending' == pending || pending' == pending + [n]
             else done' == done + [n] && pending' == pending == []
    ensures done' + pending' == done + pending || done' + pending' == done + pending + [n]
  {
    if pending' == pending + [n] {
      assert done + (pending + [n]) == done + pending + [n];
    } else if done' != done {
      assert done' + [] == done' && done + [] == done;
    }
  }

  lemma MoreIsInOrder(all: seq<nat>, was: seq<nat>, dispatched: seq<Line>, line: Line, window: Label, event: Name)
    requires InDispatchOrder(was, dispatched, window, event)
    requires all == was || (line == Line(window, event, |dispatched|) && all == was + [|dispatched|])
    ensures InDispatchOrder(all, dispatched + [line], window, event)
  {
    assert forall i :: 0 <= i < |was| ==> all[i] == was[i] && (dispatched + [line])[all[i]] == dispatched[was[i]];
  }

  lemma StepKeepsEntries(s: System, step: Step, w: Label)
    requires forall x :: x in s.states ==> EntryHolds(s.states[x])
    requires w in Next(s, step).states
    ensures EntryHolds(Next(s, step).states[w])
  {
  }

  lemma {:induction false} SerialsOfOthers(log: seq<Line>, window: Label, event: Name)
    requires forall i :: 0 <= i < |log| ==> log[i].window != window
    ensures Serials(log, window, event) == []
  {
    if log != [] {
      SerialsOfOthers(log[..|log| - 1], window, event);
    }
  }

  lemma LogsOfOthersKeepEpoch(s: System, t: System, w: Label, more: seq<Line>, sent: seq<Line>)
    requires EpochHolds(s, w) && w in s.states && w in t.states && t.states[w] == s.states[w]
    requires w in t.epochs && t.epochs[w] == s.epochs[w]
    requires t.dispatched == s.dispatched + more && t.delivered == s.delivered + sent
    requires forall i :: 0 <= i < |more| ==> more[i].window != w
    requires forall i :: 0 <= i < |sent| ==> sent[i].window != w
    ensures EpochHolds(t, w)
  {
    var e, epoch := s.states[w].expected, s.epochs[w];
    SuffixOfAppend(s.dispatched, more, epoch.dispatched);
    SuffixOfAppend(s.delivered, sent, epoch.delivered);
    SerialsAppend(s.dispatched[epoch.dispatched..], more, w, e);
    SerialsAppend(s.delivered[epoch.delivered..], sent, w, e);
    SerialsOfOthers(more, w, e);
    SerialsOfOthers(sent, w, e);
  }

  /** A step on another window leaves this window's account as it was. */
  lemma OtherWindowsKeepTheirEpoch(s: System, step: Step, w: Label)
    requires EpochHolds(s, w) && w != step.window
    ensures EpochHolds(Next(s, step), w)
  {
    var t := Next(s, step);
    if w in s.states {
      match step
      case Dispatch(x, event) =>
        var command := Envelope(event, |s.dispatched|);
        LogsOfOthersKeepEpoch(s, t, w, [Line(x, event, |s.dispatched|)], Lines(x, SentByDispatch(s.states, x, command)));
      case MarkReady(x, token, event) =>
        LogsOfOthersKeepEpoch(s, t, w, [], Lines(x, SentByReady(s.states, x, token, event)));
      case _ =>
        LogsOfOthersKeepEpoch(s, t, w, [], []);
    }
  }

  lemma SerialsOfOne(w: Label, event: Name, n: nat, e: Name)
    ensures Serials([Line(w, event, n)], w, e) == if event == e then [n] else []
  {
    var line := [Line(w, event, n)];
    assert line[..0] == [];
    assert Serials([], w, e) == [];
  }

  lemma PayloadsAppend(pending: seq<Envelope<nat>>, event: Name, n: nat)
    ensures Payloads(pending + [Envelope(event, n)]) == Payloads(pending) + [n]
    ensures Payloads([Envelope(event, n)]) == [n]
  {
  }

  lemma DispatchedSince(s: System, step: Step, k: nat, e: Name)
    requires step.Dispatch? && k <= |s.dispatched|
    ensures var was := Serials(s.dispatched[k..], step.window, e);
            Serials(Next(s, step).dispatched[k..], step.window, e) == if step.event == e then was + [|s.dispatched|] else was
  {
    var line := [Line(step.window, step.event, |s.dispatched|)];
    SuffixOfAppend(s.dispatched, line, k);
    SerialsAppend(s.dispatched[k..], line, step.window, e);
    SerialsOfOne(step.window, step.event, |s.dispatched|, e);
  }

  lemma DeliveredSince(s: System, step: Step, k: nat, e: Name)
    requires step.Dispatch? && k <= |s.delivered|
    ensures var was := Serials(s.delivered[k..], step.window, e);
            Serials(Next(s, step).delivered[k..], step.window, e)
            == if step.event == e && GoesThrough(s.states, step.window, e) then was + [|s.dispatched|] else was
  {
    var n: nat := |s.dispatched|;
    var sent := SentByDispatch(s.states, step.window, Envelope(step.event, n));
    SuffixOfAppend(s.delivered, Lines(step.window, sent), k);
    SerialsAppend(s.delivered[k..], Lines(step.window, sent), step.window, e);
    SerialsOfLines(step.window, sent, step.window, e, step.event);
    PayloadsAppend([], step.event, n);
  }

  lemma DispatchKeepsEpoch(s: System, step: Step)
    requires step.Dispatch? && EpochHolds(s, step.window)
    requires step.window in s.states && EntryHolds(s.states[step.window])
    ensures EpochHolds(Next(s, step), step.window)
  {
    var w, e, n := step.window, s.states[step.window].expected, |s.dispatched|;
    DispatchedSince(s, step, s.epochs[w].dispatched, e);
    DeliveredSince(s, step, s.epochs[w].delivered, e);
    PayloadsAppend(s.states[w].pending, step.event, n);
    var done, pending := Serials(s.delivered[s.epochs[w].delivered..], w, e), Payloads(s.states[w].pending);
    assert done + (pending + [n]) == done + pending + [n];
    if s.states[w].status.Ready? {
      assert pending == [] && done + pending == done && done + [n] + [] == done + [n];
    }
  }

  lemma SignalKeepsEpoch(s: System, step: Step)
    requires !step.Dispatch? && EpochHolds(s, step.window)
    requires step.window in s.states ==> EntryHolds(s.states[step.window])
    ensures EpochHolds(Next(s, step), step.window)
  {
    var t, w := Next(s, step), step.window;
    assert s.delivered + Lines(w, []) == s.delivered;
    assert s.dispatched[|s.dispatched|..] == [] && s.delivered[|s.delivered|..] == [];
    if step.MarkReady? && Registered(s.states, w, step.token, step.event) {
      var e, epoch, sent := step.event, s.epochs[w], s.states[w].pending;
      SuffixOfAppend(s.delivered, Lines(w, sent), epoch.delivered);
      SerialsAppend(s.delivered[epoch.delivered..], Lines(w, sent), w, e);
      SerialsOfLines(w, sent, w, e, e);
    }
  }

  lemma StepKeepsEpoch(s: System, step: Step, w: Label)
    requires Invariant(s)
    ensures EpochHolds(Next(s, step), w)
  {
    if w != step.window {
      OtherWindowsKeepTheirEpoch(s, step, w);
    } else if !step.Dispatch? {
      SignalKeepsEpoch(s, step);
    } else if w in s.states {
      DispatchKeepsEpoch(s, step);
    }
  }

  lemma {:induction false} RunKeeps(history: seq<System>, steps: seq<Step>, n: nat)
    requires IsRun(history, steps) && n < |history|
    ensures Invariant(history[n])
  {
    if n > 0 {
      RunKeeps(history, steps, n - 1);
      var s, step := history[n - 1], steps[n - 1];
      var t := Next(s, step);
      forall w | w in t.states ensures EntryHolds(t.states[w]) {
        StepKeepsEntries(s, step, w);
      }
      forall w, e ensures OrderHolds(t, w, e) {
        assert OrderHolds(s, w, e);
        if step.Dispatch? {
          DispatchExtendsAccount(s, step, w, e);
          MoreIsInOrder(Account(t, w, e), Account(s, w, e), s.dispatched, Line(step.window, step.event, |s.dispatched|), w, e);
        } else {
          SignalKeepsOrder(s, step, w, e);
        }
      }
      forall w ensures EpochHolds(t, w) {
        StepKeepsEpoch(s, step, w);
      }
    }
  }

  // ------------------------------------------------------------------ theorems

  /**
   * For every window and command name, over any run: delivered commands are dispatched ones, in dispatch order, none twice;
   * and a window that is ready or failed has nothing pending.
   */
  lemma DeliveredInOrderOnce(history: seq<System>, steps: seq<Step>, n: nat, window: Label, event: Name)
    requires IsRun(history, steps) && n < |history|
    ensures var s := history[n];
            var serials := Serials(s.delivered, window, event);
            && Increasing(serials)
            && (forall i :: 0 <= i < |serials| ==>
                  serials[i] < |s.dispatched| && s.dispatched[serials[i]] == Line(window, event, serials[i]))
            && (window in s.states && !s.states[window].status.Loading? ==> s.states[window].pending == [])
  {
    RunKeeps(history, steps, n);
    var s := history[n];
    var serials := Serials(s.delivered, window, event);
    var all := Account(s, window, event);
    assert OrderHolds(s, window, event);
    assert forall i :: 0 <= i < |serials| ==> serials[i] == all[i];
  }

  /** Within one registration and without a failure nothing is lost: dispatched equals delivered followed by pending. */
  lemma NothingIsLostWithoutFailure(history: seq<System>, steps: seq<Step>, n: nat, window: Label)
    requires IsRun(history, steps) && n < |history| && window in history[n].states
    requires window in history[n].epochs && !history[n].epochs[window].failed
    ensures var s := history[n];
            var e, epoch := s.states[window].expected, s.epochs[window];
            && epoch.dispatched <= |s.dispatched| && epoch.delivered <= |s.delivered|
            && Serials(s.dispatched[epoch.dispatched..], window, e)
               == Serials(s.delivered[epoch.delivered..], window, e) + Payloads(s.states[window].pending)
  {
    RunKeeps(history, steps, n);
    assert EpochHolds(history[n], window);
  }

  /** A signal that carries another registration's token changes nothing and releases nothing. */
  lemma StaleSignalsChangeNothing(s: System, step: Step)
    requires step.MarkReady? || step.MarkLoading? || step.MarkFailed?
    requires step.window in s.states && s.states[step.window].token != step.token
    ensures Next(s, step) == s
  {
    if step.MarkReady? {
      assert s.delivered + Lines(step.window, []) == s.delivered;
    }
  }
}
