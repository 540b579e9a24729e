/** Commands wait for the child page: when a dispatch is delivered at once, from the history of registrations and signals alone. */
module ChildWindowReadiness {
  import opened ChildWindowCommandQueue

  // ------------------------------------------------------------------ what the history says

  /** The step ends a registration of the window for this token and command name. */
  predicate EndsRegistration(step: Step, w: Label, token: Token, event: Name) {
    step == Clear(w) || (step.Register? && step.window == w && (step.token != token || step.expected != event))
  }

  /** Registered at step `k`, and not cleared or registered otherwise since. */
  predicate RegisteredAt(steps: seq<Step>, k: nat, n: nat, w: Label, token: Token, event: Name)
    requires n <= |steps|
  {
    k < n && steps[k] == Register(w, token, event) && forall j :: k < j < n ==> !EndsRegistration(steps[j], w, token, event)
  }

  ghost predicate IsRegistered(steps: seq<Step>, n: nat, w: Label, token: Token, event: Name)
    requires n <= |steps|
  {
    exists k: nat :: RegisteredAt(steps, k, n, w, token, event)
  }

  /** The page has signalled at step `r` that it listens, after a registration that still holds, and has not gone away since. */
  predicate SignalledAt(steps: seq<Step>, k: nat, r: nat, n: nat, w: Label, token: Token, event: Name)
    requires n <= |steps|
  {
    && RegisteredAt(steps, k, n, w, token, event) && k < r < n && steps[r] == MarkReady(w, token, event)
    && forall j :: r < j < n ==> steps[j] != MarkLoading(w, token) && steps[j] != MarkFailed(w, token)
  }

  ghost predicate IsListening(steps: seq<Step>, n: nat, w: Label, token: Token, event: Name)
    requires n <= |steps|
  {
    exists k: nat, r: nat :: SignalledAt(steps, k, r, n, w, token, event)
  }

  /** The window has failed at step `f`, and has not signalled since that it listens. */
  predicate FailedAt(steps: seq<Step>, k: nat, f: nat, n: nat, w: Label, token: Token, event: Name)
    requires n <= |steps|
  {
    && RegisteredAt(steps, k, n, w, token, event) && k < f < n && steps[f] == MarkFailed(w, token)
    && forall j :: f < j < n ==> steps[j] != MarkReady(w, token, event)
  }

  ghost predicate HasFailed(steps: seq<Step>, n: nat, w: Label, token: Token, event: Name)
    requires n <= |steps|
  {
    exists k: nat, f: nat :: FailedAt(steps, k, f, n, w, token, event)
  }

  // ------------------------------------------------------------------ one step later

  lemma RegisteredLater(steps: seq<Step>, n: nat, w: Label, token: Token, event: Name)
    requires n < |steps|
    ensures IsRegistered(steps, n + 1, w, token, event)
       <==> steps[n] == Register(w, token, event)
            || (IsRegistered(steps, n, w, token, event) && !EndsRegistration(steps[n], w, token, event))
  {
    if IsRegistered(steps, n, w, token, event) && !EndsRegistration(steps[n], w, token, event) {
      var k: nat :| RegisteredAt(steps, k, n, w, token, event);
      assert RegisteredAt(steps, k, n + 1, w, token, event);
    }
    if steps[n] == Register(w, token, event) {
      assert RegisteredAt(steps, n, n + 1, w, token, event);
    }
    if IsRegistered(steps, n + 1, w, token, event) {
      var k: nat :| RegisteredAt(steps, k, n + 1, w, token, event);
      assert k < n ==> RegisteredAt(steps, k, n, w, token, event);
    }
  }

  lemma ListeningLater(steps: seq<Step>, n: nat, w: Label, token: Token, event: Name)
    requires n < |steps|
    ensures IsListening(steps, n + 1, w, token, event)
       <==> (steps[n] == MarkReady(w, token, event) && IsRegistered(steps, n, w, token, event))
            || (IsListening(steps, n, w, token, event) && !EndsRegistration(steps[n], w, token, event)
                && steps[n] != MarkLoading(w, token) && steps[n] != MarkFailed(w, token))
  {
    if steps[n] == MarkReady(w, token, event) && IsRegistered(steps, n, w, token, event) {
      var k: nat :| RegisteredAt(steps, k, n, w, token, event);
      assert SignalledAt(steps, k, n, n + 1, w, token, event);
    }
    if IsListening(steps, n, w, token, event) && !EndsRegistration(steps[n], w, token, event)
       && steps[n] != MarkLoading(w, token) && steps[n] != MarkFailed(w, token) {
      var k: nat, r: nat :| SignalledAt(steps, k, r, n, w, token, event);
      assert SignalledAt(steps, k, r, n + 1, w, token, event);
    }
    if IsListening(steps, n + 1, w, token, event) {
      var k: nat, r: nat :| SignalledAt(steps, k, r, n + 1, w, token, event);
      assert RegisteredAt(steps, k, n, w, token, event);
      assert r < n ==> SignalledAt(steps, k, r, n, w, token, event);
    }
  }

  lemma FailedLater(steps: seq<Step>, n: nat, w: Label, token: Token, event: Name)
    requires n < |steps|
    ensures HasFailed(steps, n + 1, w, token, event)
       <==> (steps[n] == MarkFailed(w, token) && IsRegistered(steps, n, w, token, event))
            || (HasFailed(steps, n, w, token, event) && !EndsRegistration(steps[n], w, token, event)
                && steps[n] != MarkReady(w, token, event))
  {
    if steps[n] == MarkFailed(w, token) && IsRegistered(steps, n, w, token, event) {
      var k: nat :| RegisteredAt(steps, k, n, w, token, event);
      assert FailedAt(steps, k, n, n + 1, w, token, event);
    }
    if HasFailed(steps, n, w, token, event) && !EndsRegistration(steps[n], w, token, event)
       && steps[n] != MarkReady(w, token, event) {
      var k: nat, f: nat :| FailedAt(steps, k, f, n, w, token, event);
      assert FailedAt(steps, k, f, n + 1, w, token, event);
    }
    if HasFailed(steps, n + 1, w, token, event) {
      var k: nat, f: nat :| FailedAt(steps, k, f, n + 1, w, token, event);
      assert RegisteredAt(steps, k, n, w, token, event);
      assert f < n ==> FailedAt(steps, k, f, n, w, token, event);
    }
  }

  // ------------------------------------------------------------------ the queue follows the history

  /** Entry and status of a window are what the history says. */
  ghost predicate FollowsHistory(s: System, steps: seq<Step>, n: nat, w: Label, token: Token, event: Name)
    requires n <= |steps|
  {
    && (Registered(s.states, w, token, event) <==> IsRegistered(steps, n, w, token, event))
    && (Registered(s.states, w, token, event) && s.states[w].status == Ready <==> IsListening(steps, n, w, token, event))
    && (Registered(s.states, w, token, event) && s.states[w].status == Failed <==> HasFailed(steps, n, w, token, event))
  }

  lemma StepFollowsHistory(s: System, steps: seq<Step>, n: nat, w: Label, token: Token, event: Name)
    requires n < |steps| && FollowsHistory(s, steps, n, w, token, event)
    ensures FollowsHistory(Next(s, steps[n]), steps, n + 1, w, token, event)
  {
    RegisteredLater(steps, n, w, token, event);
    ListeningLater(steps, n, w, token, event);
    FailedLater(steps, n, w, token, event);
    ListeningIsRegistered(steps, n, w, token, event);
  }

  lemma ListeningIsRegistered(steps: seq<Step>, n: nat, w: Label, token: Token, event: Name)
    requires n <= |steps|
    ensures IsListening(steps, n, w, token, event) || HasFailed(steps, n, w, token, event) ==> IsRegistered(steps, n, w, token, event)
  {
  }

  lemma {:induction false} RunFollowsHistory(history: seq<System>, steps: seq<Step>, n: nat, w: Label, token: Token, event: Name)
    requires IsRun(history, steps) && n <= |steps|
    ensures FollowsHistory(history[n], steps, n, w, token, event)
  {
    if n > 0 {
      RunFollowsHistory(history, steps, n - 1, w, token, event);
      StepFollowsHistory(history[n - 1], steps, n - 1, w, token, event);
    }
  }

  // ------------------------------------------------------------------ theorems

  lemma LinesOfOne(w: Label, command: Envelope<nat>)
    ensures Lines(w, [command]) == [Line(w, command.event, command.payload)] && Lines(w, []) == []
  {
  }

  /** What a dispatch does: delivered at once, dropped, or put last among the pending commands. */
  predicate DeliversAtOnce(s: System, t: System, w: Label, event: Name) {
    t.delivered == s.delivered + [Line(w, event, |s.dispatched|)] && t.states == s.states
  }

  predicate HoldsBack(s: System, t: System, w: Label, event: Name) {
    && t.delivered == s.delivered && w in s.states && w in t.states
    && t.states == s.states[w := s.states[w].(pending := s.states[w].pending + [Envelope(event, |s.dispatched|)])]
  }

  /**
   * Over every run: a command of the name a window was registered for is delivered at once if and only if the page has signalled
   * since the registration that it listens, and has neither gone back to loading nor failed since. Otherwise nothing is delivered:
   * after a failure the command is dropped, else it becomes the last pending one.
   */
  lemma CommandsWaitForReadiness(
    history: seq<System>, steps: seq<Step>, n: nat, w: Label, token: Token, event: Name)
    requires IsRun(history, steps) && n < |steps| && steps[n] == Dispatch(w, event)
    requires IsRegistered(steps, n, w, token, event)
    ensures DeliversAtOnce(history[n], history[n + 1], w, event) <==> IsListening(steps, n, w, token, event)
    ensures !IsListening(steps, n, w, token, event) ==>
              if HasFailed(steps, n, w, token, event)
              then history[n + 1].delivered == history[n].delivered && history[n + 1].states == history[n].states
              else HoldsBack(history[n], history[n + 1], w, event)
  {
    RunFollowsHistory(history, steps, n, w, token, event);
    var s := history[n];
    LinesOfOne(w, Envelope(event, |s.dispatched|));
    assert history[n + 1] == Next(s, steps[n]);
    assert |s.delivered + [Line(w, event, |s.dispatched|)]| > |s.delivered|;
  }

  /** Commands of any other name, or to a window that is not registered, are delivered at once. */
  lemma OtherCommandsGoThrough(history: seq<System>, steps: seq<Step>, n: nat, w: Label, event: Name)
    requires IsRun(history, steps) && n < |steps| && steps[n] == Dispatch(w, event)
    requires forall token :: !IsRegistered(steps, n, w, token, event)
    ensures DeliversAtOnce(history[n], history[n + 1], w, event)
  {
    var s := history[n];
    if w in s.states {
      RunFollowsHistory(history, steps, n, w, s.states[w].token, event);
    }
    LinesOfOne(w, Envelope(event, |s.dispatched|));
  }

  /** When the page of a registration signals that it listens, all that was held back for it is delivered, in order. */
  lemma ReadinessReleasesAll(history: seq<System>, steps: seq<Step>, n: nat, w: Label, token: Token, event: Name)
    requires IsRun(history, steps) && n < |steps| && steps[n] == MarkReady(w, token, event)
    requires IsRegistered(steps, n, w, token, event)
    ensures w in history[n].states && w in history[n + 1].states && history[n + 1].states[w].pending == []
    ensures history[n + 1].delivered == history[n].delivered + Lines(w, history[n].states[w].pending)
  {
    RunFollowsHistory(history, steps, n, w, token, event);
    assert history[n + 1] == Next(history[n], steps[n]);
  }

  /** Nothing but a dispatch and a signal of readiness delivers anything. */
  lemma OnlyDispatchAndReadinessDeliver(history: seq<System>, steps: seq<Step>, n: nat)
    requires IsRun(history, steps) && n < |steps| && !steps[n].Dispatch? && !steps[n].MarkReady?
    ensures history[n + 1].delivered == history[n].delivered
  {
    assert history[n + 1] == Next(history[n], steps[n]);
  }
}
