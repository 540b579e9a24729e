/** When a window claims external-open requests, and that all of them are handed over once it may. */
module ExternalOpenProgress {
  import opened ExternalOpenBackend
  import opened ExternalOpenDelivery

  // ------------------------------------------------------------------ nothing is claimed before the window is ready

  function ClaimsOf(s: System, w: Label): seq<Claim> { if w in s.fronts then s.fronts[w].claims else [] }

  /** More claims in flight than before, or one that the backend has yet to execute where there was none. */
  predicate NewClaim(s: System, t: System, w: Label) {
    |ClaimsOf(t, w)| > |ClaimsOf(s, w)| || (Requested in ClaimsOf(t, w) && Requested !in ClaimsOf(s, w))
  }

  /** In every run, a step that makes a window claim leaves it ready. */
  lemma ClaimsOnlyWhenReady(states: seq<System>, steps: seq<Step>, i: nat, w: Label)
    requires IsRun(states, steps) && i < |steps|
    ensures NewClaim(states[i], states[i + 1], w) ==> w in states[i + 1].fronts && states[i + 1].fronts[w].ready
  {
    RunKeeps(states, steps, i, w);
    assert Enabled(states[i], steps[i]);
    NewClaimNeedsReadiness(states[i], steps[i], w);
  }

  lemma NewClaimNeedsReadiness(s: System, step: Step, w: Label)
    requires Enabled(s, step) && WindowInvariant(s, w)
    ensures NewClaim(s, Next(s, step), w) ==> w in Next(s, step).fronts && Next(s, step).fronts[w].ready
  {
    if step.ResolveClaim? && step.window == w {
      ResolvedClaims(s.fronts[w], step.claim);
    }
  }

  lemma ResolvedClaims(f: Front, i: nat)
    requires Coherent(f) && i < |f.claims| && f.claims[i].Drained?
    ensures var g := ClaimResolved(f, i); g.ready == f.ready && (g.claims == [] || (g.claims == [Requested] && f.ready))
  {
    assert Without(f.claims, i) == [];
  }

  predicate Unserved(f: Front) { f.claims == [] && f.handed == [] && f.running == [] && f.queue == [] }

  lemma UnreadyStaysUnserved(s: System, step: Step, w: Label)
    requires Enabled(s, step) && WindowInvariant(s, w) && (w in s.fronts ==> Unserved(s.fronts[w]))
    requires w in Next(s, step).fronts && !Next(s, step).fronts[w].ready
    ensures Unserved(Next(s, step).fronts[w])
  {
  }

  lemma UnservedIsPending(s: System, w: Label)
    requires WindowInvariant(s, w) && (w in s.fronts ==> Unserved(s.fronts[w]))
    ensures ForWindow(s.pending, w) == ForWindow(s.accepted, w)
  {
  }

  predicate NotReady(s: System, w: Label) { w in s.fronts ==> !s.fronts[w].ready }

  predicate NotServed(s: System, w: Label) { w in s.fronts ==> Unserved(s.fronts[w]) }

  lemma UnservedAfterStep(states: seq<System>, steps: seq<Step>, i: nat, w: Label)
    requires IsRun(states, steps) && i < |steps| && NotServed(states[i], w) && NotReady(states[i + 1], w)
    ensures NotServed(states[i + 1], w)
  {
    RunKeeps(states, steps, i, w);
    assert Enabled(states[i], steps[i]) && states[i + 1] == Next(states[i], steps[i]);
    if w in states[i + 1].fronts { UnreadyStaysUnserved(states[i], steps[i], w); }
  }

  lemma {:induction false} NeverReadyStaysUnserved(states: seq<System>, steps: seq<Step>, n: nat, w: Label)
    requires IsRun(states, steps) && n < |states| && forall k :: 0 <= k <= n ==> NotReady(states[k], w)
    ensures NotServed(states[n], w)
  {
    if n > 0 {
      NeverReadyStaysUnserved(states, steps, n - 1, w);
      UnservedAfterStep(states, steps, n - 1, w);
    } else {
      assert states[0].fronts == map[];
    }
  }

  /** A window that was never ready has neither claimed nor handled anything; all it was sent waits in the backend. */
  lemma NeverReadyNeverServed(states: seq<System>, steps: seq<Step>, n: nat, w: Label)
    requires IsRun(states, steps) && n < |states|
    requires forall k :: 0 <= k <= n && w in states[k].fronts ==> !states[k].fronts[w].ready
    ensures w in states[n].fronts ==>
              var f := states[n].fronts[w]; f.claims == [] && f.handed == [] && f.running == [] && f.queue == []
    ensures ForWindow(states[n].pending, w) == ForWindow(states[n].accepted, w)
  {
    NeverReadyStaysUnserved(states, steps, n, w);
    RunKeeps(states, steps, n, w);
    UnservedIsPending(states[n], w);
  }

  /** The listener and the readiness of a window follow its steps, and each of them makes a ready window claim or claim again. */
  lemma FrontFollowsItsSteps(states: seq<System>, steps: seq<Step>, i: nat, w: Label)
    requires IsRun(states, steps) && i < |steps| && w in states[i].fronts
    ensures var f, step := states[i + 1].fronts[w], steps[i];
            && (step == SetReady(w, true) ==> f.ready && WillClaim(f)) && (step == SetReady(w, false) ==> !f.ready)
            && (step == RegisterListener(w) ==> f.listener == Registered)
            && (step == InstallListener(w) ==> f.listener == Installed && (f.ready ==> WillClaim(f)))
            && (step == RerunEffects(w) ==> f.listener == Absent && (f.ready ==> WillClaim(f)))
            && (step == DeliverEvent(w, true) ==> f.ready ==> WillClaim(f))
  {
    RunKeeps(states, steps, i, w);
    assert Enabled(states[i], steps[i]);
    assert states[i + 1] == Next(states[i], steps[i]);
  }

  // ------------------------------------------------------------------ everything is handed over

  /** The steps that need nobody to send, open or toggle anything: what is under way for a window goes on. */
  predicate Works(s: System, step: Step, w: Label) {
    match step
    case EndCall(c) => c in s.calls && s.calls[c].window == w
    case DeliverEvent(x, _) => x == w
    case Drain(x, _) => x == w
    case ResolveClaim(x, _) => x == w
    case SettleHandler(x, _) => x == w
    case _ => false
  }

  function CallsFor(s: System, w: Label): set<nat> { set c | c in s.calls && s.calls[c].window == w }

  function ClaimWork(claims: seq<Claim>): nat {
    if claims == [] then 0 else if claims[0].Requested? then 2 else 1
  }

  function FrontWork(f: Front): nat {
    ClaimWork(f.claims) + (if f.claimAgain then 3 else 0) + |InFlight(f.claims)| + |f.queue| + |f.running|
  }

  /** The number of such steps that are left at most. */
  function WorkLeft(s: System, w: Label): nat {
    5 * |CallsFor(s, w)| + 4 * s.events[w] + |ForWindow(s.pending, w)| + if w in s.fronts then FrontWork(s.fronts[w]) else 0
  }

  lemma ClaimNowWork(f: Front)
    requires Coherent(f)
    ensures FrontWork(ClaimNow(f)) <= FrontWork(f) + 3
    ensures f.claims == [] ==> FrontWork(ClaimNow(f)) <= FrontWork(f) + 2
  {
  }

  lemma RunLoopWork(f: Front)
    ensures FrontWork(RunLoop(f)) == FrontWork(f)
  {
  }

  lemma SettledWork(f: Front, i: nat)
    requires Coherent(f) && i < |f.running|
    ensures FrontWork(HandlerSettled(f, i)) == FrontWork(f) - 1
  {
    RunLoopWork(f.(running := Without(f.running, i)));
  }

  lemma QueuedWork(f: Front, batch: seq<Request>)
    requires f.claims == []
    ensures var g := if batch == [] then f else ProcessQueue(f.(queue := f.queue + batch));
            FrontWork(g) == FrontWork(f) + |batch| && g.claims == [] && g.claimAgain == f.claimAgain && g.ready == f.ready
  {
    if batch != [] && !f.processing {
      RunLoopWork(f.(queue := f.queue + batch, processing := true));
    }
  }

  lemma ResolvedWork(f: Front, i: nat)
    requires Coherent(f) && i < |f.claims| && f.claims[i].Drained?
    ensures FrontWork(ClaimResolved(f, i)) < FrontWork(f)
  {
    var f1 := f.(claims := Without(f.claims, i));
    assert f1.claims == [];
    QueuedWork(f1, f.claims[i].batch);
  }

  lemma DrainedWork(f: Front, i: nat, backend: seq<Request>)
    requires Coherent(f) && i < |f.claims| && f.claims[i].Requested?
    ensures FrontWork(f.(claims := f.claims[i := Drained(backend)])) == FrontWork(f) - 1 + |backend|
  {
    assert f.claims[i := Drained(backend)] == [Drained(backend)];
  }

  lemma EndedCallWork(s: System, step: Step, w: Label)
    requires step.EndCall? && Enabled(s, step) && s.calls[step.call].window == w
    ensures WorkLeft(Next(s, step), w) < WorkLeft(s, w)
  {
    var t := Next(s, step);
    assert CallsFor(t, w) == CallsFor(s, w) - {step.call};
    assert t.events[w] <= s.events[w] + 1;
  }

  lemma CallsForSame(s: System, t: System, w: Label)
    requires t.calls == s.calls
    ensures CallsFor(t, w) == CallsFor(s, w)
  {
  }

  lemma EventWork(s: System, step: Step, w: Label)
    requires step.DeliverEvent? && step.window == w && Enabled(s, step) && WindowInvariant(s, w)
    ensures WorkLeft(Next(s, step), w) < WorkLeft(s, w)
  {
    var t := Next(s, step);
    CallsForSame(s, t, w);
    assert t.events[w] == s.events[w] - 1;
    if step.heard { ClaimNowWork(s.fronts[w]); }
  }

  lemma FrontStepWork(s: System, step: Step, w: Label)
    requires (step.Drain? || step.ResolveClaim? || step.SettleHandler?) && step.window == w
    requires Enabled(s, step) && WindowInvariant(s, w)
    ensures WorkLeft(Next(s, step), w) < WorkLeft(s, w)
  {
    var f := s.fronts[w];
    CallsForSame(s, Next(s, step), w);
    match step
    case Drain(_, i) =>
      ClaimPartitions(s.pending, w, w);
      DrainedWork(f, i, ForWindow(s.pending, w));
    case ResolveClaim(_, i) => ResolvedWork(f, i);
    case SettleHandler(_, i) => SettledWork(f, i);
  }

  /** Each such step leaves less to do. */
  lemma WorkGetsLess(s: System, step: Step, w: Label)
    requires Enabled(s, step) && WindowInvariant(s, w) && Works(s, step, w)
    ensures WorkLeft(Next(s, step), w) < WorkLeft(s, w)
  {
    if step.EndCall? {
      EndedCallWork(s, step, w);
    } else if step.DeliverEvent? {
      EventWork(s, step, w);
    } else {
      FrontStepWork(s, step, w);
    }
  }

  /** However the steps under way for a window are ordered, they come to an end. */
  lemma {:induction false} WorkEnds(states: seq<System>, steps: seq<Step>, m: nat, n: nat, w: Label)
    requires IsRun(states, steps) && m <= n <= |steps|
    requires forall i :: m <= i < n ==> Works(states[i], steps[i], w)
    ensures n - m + WorkLeft(states[n], w) <= WorkLeft(states[m], w)
  {
    if m < n {
      WorkEnds(states, steps, m, n - 1, w);
      RunKeeps(states, steps, n - 1, w);
      assert Enabled(states[n - 1], steps[n - 1]) && Works(states[n - 1], steps[n - 1], w);
      WorkGetsLess(states[n - 1], steps[n - 1], w);
    }
  }

  /** Nothing is under way for the window. */
  ghost predicate Idle(s: System, w: Label) { forall step :: Works(s, step, w) ==> !Enabled(s, step) }

  lemma IdleHasNothingUnderWay(s: System, w: Label)
    requires WindowInvariant(s, w) && w in s.fronts && !s.fronts[w].listener.Absent? && Idle(s, w)
    ensures !EmitDue(s, w) && s.fronts[w].claims == [] && s.fronts[w].running == []
  {
    var f := s.fronts[w];
    assert w in s.events ==> Enabled(s, DeliverEvent(w, true)) && Works(s, DeliverEvent(w, true), w);
    forall c | c in s.calls && s.calls[c] == Call(w, true) ensures false {
      assert Enabled(s, EndCall(c)) && Works(s, EndCall(c), w);
    }
    if f.claims != [] {
      assert Works(s, Drain(w, 0), w) && Works(s, ResolveClaim(w, 0), w);
    }
    if f.running != [] {
      assert Enabled(s, SettleHandler(w, 0)) && Works(s, SettleHandler(w, 0), w);
    }
  }

  /**
   * Every request arrives: once a ready window has its listener, any way of finishing what is under way for it takes a bounded number
   * of steps, and when nothing is left under way, all that was accepted for it has been handed to its handler, in order.
   */
  lemma EverythingIsHandedOver(states: seq<System>, steps: seq<Step>, m: nat, n: nat, w: Label)
    requires IsRun(states, steps) && m <= n <= |steps|
    requires forall i :: m <= i < n ==> Works(states[i], steps[i], w)
    ensures n - m <= WorkLeft(states[m], w)
    ensures w in states[n].fronts && Waiting(states[n].fronts[w]) && Idle(states[n], w) ==>
              states[n].fronts[w].handed == ForWindow(states[n].accepted, w)
  {
    WorkEnds(states, steps, m, n, w);
    if w in states[n].fronts && Waiting(states[n].fronts[w]) && Idle(states[n], w) {
      RunKeeps(states, steps, n, w);
      IdleHasNothingUnderWay(states[n], w);
      AtRestEverythingWasHandedOver(states, steps, n, w);
    }
  }
}
