/**
 * Delivery of external-open requests as interleaved steps: lock-granular pushes by any number of backend calls,
 * wake-up events, backend drains, claim responses, handler completions, listener and readiness changes, for any
 * number of windows (src-tauri/src/external_open.rs with src/hooks/useExternalOpenRequests.ts).
 */
module ExternalOpenDelivery {
  import opened ExternalOpenBackend

  // ------------------------------------------------------------------ one window's hook

  /** A `claim_external_open_requests` invocation: not yet executed by the backend, or executed and on its way back. */
  datatype Claim = Requested | Drained(batch: seq<Request>)

  /** Absent; registered but the `listen` promise has not resolved yet; installed. */
  datatype Listener = Absent | Registered | Installed

  /**
   * The refs of the hook, plus what is outside it: claims in flight, handlers running, and the log of requests handed
   * to `onRequest`. Claims and handlers are lists so that "at most one" is proved rather than built in.
   */
  datatype Front = Front(
    queue: seq<Request>, processing: bool, claiming: bool, claimAgain: bool, ready: bool, listener: Listener,
    claims: seq<Claim>, running: seq<Request>, handed: seq<Request>)

  function NewFront(ready: bool): Front {
    Front([], false, false, false, ready, Absent, [], [], [])
  }

  function Without<T>(s: seq<T>, i: nat): seq<T>
    requires i < |s|
  {
    s[..i] + s[i + 1..]
  }

  /** The drain loop from its `while` test up to the next `await`. */
  function RunLoop(f: Front): Front {
    if f.queue == [] then f.(processing := false)
    else f.(queue := f.queue[1..], running := f.running + [f.queue[0]], handed := f.handed + [f.queue[0]])
  }

  function ProcessQueue(f: Front): Front {
    if f.processing then f else RunLoop(f.(processing := true))
  }

  function ClaimNow(f: Front): Front {
    if !f.ready then f
    else if f.claiming then f.(claimAgain := true)
    else f.(claiming := true, claims := f.claims + [Requested])
  }

  /** A claim resolves: queue its batch, then the `finally` block. */
  function ClaimResolved(f: Front, i: nat): Front
    requires i < |f.claims| && f.claims[i].Drained?
  {
    var batch := f.claims[i].batch;
    var f1 := f.(claims := Without(f.claims, i));
    var f2 := if batch == [] then f1 else ProcessQueue(f1.(queue := f1.queue + batch));
    var f3 := f2.(claiming := false);
    if f3.claimAgain then ClaimNow(f3.(claimAgain := false)) else f3
  }

  /** A handler settles (successfully or not) and its loop goes on. */
  function HandlerSettled(f: Front, i: nat): Front
    requires i < |f.running|
  {
    RunLoop(f.(running := Without(f.running, i)))
  }

  function ReadySet(f: Front, ready: bool): Front {
    var f1 := f.(ready := ready);
    if ready then ClaimNow(f1) else f1
  }

  // ------------------------------------------------------------------ the whole system

  /** A backend call between its first push and its emit. */
  datatype Call = Call(window: Label, pushed: bool)

  datatype System = System(
    pending: seq<Request>, calls: map<nat, Call>, events: multiset<Label>, fronts: map<Label, Front>,
    accepted: seq<Request>)

  datatype Step =
    | OpenWindow(window: Label, ready: bool)
    | BeginCall(call: nat, window: Label)
    | Push(call: nat, request: Request)
    | EndCall(call: nat)
    | DeliverEvent(window: Label, heard: bool)
    | RegisterListener(window: Label)
    | InstallListener(window: Label)
    | RerunEffects(window: Label)
    | SetReady(window: Label, ready: bool)
    | Drain(window: Label, claim: nat)
    | ResolveClaim(window: Label, claim: nat)
    | SettleHandler(window: Label, handler: nat)

  function Initial(): System {
    System([], map[], multiset{}, map[], [])
  }

  predicate Enabled(s: System, step: Step) {
    match step
    case OpenWindow(w, _) => w !in s.fronts
    case BeginCall(c, _) => c !in s.calls
    case Push(c, request) => c in s.calls && request.target == s.calls[c].window
    case EndCall(c) => c in s.calls
    // An installed or registered listener hears the event; without one it may be dropped, or be heard by a listener
    // whose removal is still in progress.
    case DeliverEvent(w, heard) => w in s.events && (heard ==> w in s.fronts) && (w in s.fronts && !s.fronts[w].listener.Absent? ==> heard)
    case RegisterListener(w) => w in s.fronts && s.fronts[w].listener.Absent?
    case InstallListener(w) => w in s.fronts && s.fronts[w].listener.Registered?
    case RerunEffects(w) => w in s.fronts
    case SetReady(w, _) => w in s.fronts
    case Drain(w, i) => w in s.fronts && i < |s.fronts[w].claims| && s.fronts[w].claims[i].Requested?
    case ResolveClaim(w, i) => w in s.fronts && i < |s.fronts[w].claims| && s.fronts[w].claims[i].Drained?
    case SettleHandler(w, i) => w in s.fronts && i < |s.fronts[w].running|
  }

  function Next(s: System, step: Step): System
    requires Enabled(s, step)
  {
    match step
    case OpenWindow(w, ready) => s.(fronts := s.fronts[w := NewFront(ready)])
    case BeginCall(c, w) => s.(calls := s.calls[c := Call(w, false)])
    case Push(c, request) =>
      s.(pending := s.pending + [request], accepted := s.accepted + [request],
         calls := s.calls[c := s.calls[c].(pushed := true)])
    case EndCall(c) =>
      var call := s.calls[c];
      s.(calls := s.calls - {c}, events := if call.pushed then s.events + multiset{call.window} else s.events)
    case DeliverEvent(w, heard) =>
      var s1 := s.(events := s.events - multiset{w});
      if heard then WithFront(s1, w, ClaimNow(s.fronts[w])) else s1
    case RegisterListener(w) => WithFront(s, w, s.fronts[w].(listener := Registered))
    case InstallListener(w) => WithFront(s, w, ClaimNow(s.fronts[w].(listener := Installed)))
    case RerunEffects(w) =>
      var f := s.fronts[w].(listener := Absent);
      WithFront(s, w, if f.ready then ClaimNow(f) else f)
    case SetReady(w, ready) => WithFront(s, w, ReadySet(s.fronts[w], ready))
    case Drain(w, i) =>
      var f := s.fronts[w];
      WithFront(s.(pending := ForOthers(s.pending, w)), w, f.(claims := f.claims[i := Drained(ForWindow(s.pending, w))]))
    case ResolveClaim(w, i) => WithFront(s, w, ClaimResolved(s.fronts[w], i))
    case SettleHandler(w, i) => WithFront(s, w, HandlerSettled(s.fronts[w], i))
  }

  function WithFront(s: System, w: Label, f: Front): System {
    s.(fronts := s.fronts[w := f])
  }

  /** `states` is what `steps` does from the initial state, every step being enabled. */
  predicate IsRun(states: seq<System>, steps: seq<Step>) {
    && |states| == |steps| + 1
    && states[0] == Initial()
    && forall i :: 0 <= i < |steps| ==> Enabled(states[i], steps[i]) && states[i + 1] == Next(states[i], steps[i])
  }

  // ------------------------------------------------------------------ invariant

  function InFlight(claims: seq<Claim>): seq<Request> {
    if claims == [] || claims[0].Requested? then [] else claims[0].batch
  }

  /** Flags mirror reality: one claim at most, one handler at most, and work in the queue implies a running loop. */
  predicate Coherent(f: Front) {
    && |f.claims| <= 1 && (f.claiming <==> |f.claims| == 1)
    && |f.running| <= 1 && (f.processing <==> |f.running| == 1)
    && (f.queue != [] ==> f.processing)
    && (f.claimAgain ==> f.claiming)
  }

  /** Everything this window was ever given, in order, with `backend` still waiting. */
  function Owed(f: Front, backend: seq<Request>): seq<Request> {
    f.handed + f.queue + InFlight(f.claims) + backend
  }

  predicate Waiting(f: Front) { f.listener.Installed? && f.ready }

  /** The front end itself will claim again without any further event. */
  predicate WillClaim(f: Front) { f.claims == [Requested] || f.claimAgain }

  predicate EmitDue(s: System, w: Label) {
    w in s.events || exists c :: c in s.calls && s.calls[c] == Call(w, true)
  }

  predicate WindowInvariant(s: System, w: Label) {
    if w in s.fronts then
      var f := s.fronts[w];
      && Coherent(f)
      && ForWindow(s.accepted, w) == Owed(f, ForWindow(s.pending, w))
      && (Waiting(f) && ForWindow(s.pending, w) != [] ==> EmitDue(s, w) || WillClaim(f))
    else ForWindow(s.accepted, w) == ForWindow(s.pending, w)
  }

  // ------------------------------------------------------------------ each hook operation

  lemma ClaimNowKeeps(f: Front, backend: seq<Request>)
    requires Coherent(f)
    ensures var g := ClaimNow(f);
            && Coherent(g) && Owed(g, backend) == Owed(f, backend)
            && g.listener == f.listener && g.ready == f.ready
            && (f.ready ==> WillClaim(g)) && (WillClaim(f) ==> WillClaim(g))
  {
  }

  lemma RunLoopKeeps(f: Front, backend: seq<Request>)
    requires f.processing && f.running == []
    ensures var g := RunLoop(f);
            && Owed(g, backend) == Owed(f, backend)
            && |g.running| <= 1 && (g.processing <==> |g.running| == 1) && (g.queue != [] ==> g.processing)
            && g.claims == f.claims && g.claiming == f.claiming && g.claimAgain == f.claimAgain
            && g.listener == f.listener && g.ready == f.ready
  {
    if f.queue != [] {
      assert f.queue == [f.queue[0]] + f.queue[1..];
      assert RunLoop(f).handed + RunLoop(f).queue == f.handed + f.queue;
    }
  }

  /** Queueing a claimed batch moves it from the claim to the queue, and starts the loop if there is something to do. */
  lemma BatchQueuedKeeps(f: Front, batch: seq<Request>, backend: seq<Request>)
    requires f.claims == [] && |f.running| <= 1 && (f.processing <==> |f.running| == 1) && (f.queue != [] ==> f.processing)
    ensures var g := if batch == [] then f else ProcessQueue(f.(queue := f.queue + batch));
            && Owed(g, backend) == f.handed + f.queue + batch + backend
            && |g.running| <= 1 && (g.processing <==> |g.running| == 1) && (g.queue != [] ==> g.processing)
            && g.claims == [] && g.claiming == f.claiming && g.claimAgain == f.claimAgain
            && g.listener == f.listener && g.ready == f.ready
  {
    var loaded := f.(queue := f.queue + batch);
    assert f.handed + (f.queue + batch) == f.handed + f.queue + batch;
    if batch != [] && !f.processing {
      RunLoopKeeps(loaded.(processing := true), backend);
      assert Owed(loaded.(processing := true), backend) == f.handed + f.queue + batch + [] + backend;
    }
  }

  lemma ClaimResolvedKeeps(f: Front, i: nat, backend: seq<Request>)
    requires Coherent(f) && i < |f.claims| && f.claims[i].Drained?
    ensures var g := ClaimResolved(f, i);
            && Coherent(g) && Owed(g, backend) == Owed(f, backend)
            && g.listener == f.listener && g.ready == f.ready
            && (WillClaim(f) && f.ready ==> WillClaim(g))
  {
    var batch := f.claims[i].batch;
    var f1 := f.(claims := Without(f.claims, i));
    assert f1.claims == [];
    BatchQueuedKeeps(f1, batch, backend);
    var f2 := if batch == [] then f1 else ProcessQueue(f1.(queue := f1.queue + batch));
    ClaimNowKeeps(f2.(claiming := false, claimAgain := false), backend);
  }

  lemma HandlerSettledKeeps(f: Front, i: nat, backend: seq<Request>)
    requires Coherent(f) && i < |f.running|
    ensures var g := HandlerSettled(f, i);
            && Coherent(g) && Owed(g, backend) == Owed(f, backend)
            && g.listener == f.listener && g.ready == f.ready && (WillClaim(f) <==> WillClaim(g))
  {
    assert Without(f.running, i) == [];
    RunLoopKeeps(f.(running := []), backend);
  }

  lemma DrainKeeps(f: Front, i: nat, backend: seq<Request>)
    requires Coherent(f) && i < |f.claims| && f.claims[i].Requested?
    ensures var g := f.(claims := f.claims[i := Drained(backend)]);
            Coherent(g) && Owed(g, []) == Owed(f, backend)
  {
    assert f.claims[i := Drained(backend)] == [Drained(backend)];
  }

  // ------------------------------------------------------------------ each system step

  lemma BackendStepKeeps(s: System, step: Step, w: Label)
    requires Enabled(s, step) && WindowInvariant(s, w)
    requires step.OpenWindow? || step.BeginCall? || step.Push? || step.EndCall?
    ensures WindowInvariant(Next(s, step), w)
  {
    var t := Next(s, step);
    if step.Push? {
      ForWindowAppends(s.accepted, [step.request], w);
      ForWindowAppends(s.pending, [step.request], w);
      assert t.calls[step.call].pushed;
    }
    if EmitDue(s, w) && w !in s.events {
      var c :| c in s.calls && s.calls[c] == Call(w, true);
      if !step.EndCall? || step.call != c {
        assert c in t.calls && t.calls[c] == Call(w, true);
      }
    }
  }

  lemma EventStepKeeps(s: System, step: Step, w: Label)
    requires Enabled(s, step) && WindowInvariant(s, w) && step.DeliverEvent?
    ensures WindowInvariant(Next(s, step), w)
  {
    var t := Next(s, step);
    assert t.calls == s.calls;
    if w == step.window && step.heard {
      ClaimNowKeeps(s.fronts[w], ForWindow(s.pending, w));
    }
    assert w != step.window ==> (w in t.events <==> w in s.events);
  }

  lemma FrontStepKeeps(s: System, step: Step, w: Label)
    requires Enabled(s, step) && WindowInvariant(s, w)
    requires step.RegisterListener? || step.InstallListener? || step.RerunEffects? || step.SetReady?
    ensures WindowInvariant(Next(s, step), w)
  {
    assert EmitDue(Next(s, step), w) <==> EmitDue(s, w);
    if w == step.window {
      var f := s.fronts[w];
      var backend := ForWindow(s.pending, w);
      match step {
        case RegisterListener(_) =>
        case InstallListener(_) => ClaimNowKeeps(f.(listener := Installed), backend);
        case RerunEffects(_) => ClaimNowKeeps(f.(listener := Absent), backend);
        case SetReady(_, ready) => ClaimNowKeeps(f.(ready := ready), backend);
      }
    }
  }

  lemma WorkStepKeeps(s: System, step: Step, w: Label)
    requires Enabled(s, step) && WindowInvariant(s, w)
    requires step.Drain? || step.ResolveClaim? || step.SettleHandler?
    ensures WindowInvariant(Next(s, step), w)
  {
    assert EmitDue(Next(s, step), w) <==> EmitDue(s, w);
    var backend := ForWindow(s.pending, w);
    if step.Drain? {
      ClaimPartitions(s.pending, step.window, w);
    }
    if w == step.window {
      match step {
        case Drain(_, i) => DrainKeeps(s.fronts[w], i, backend);
        case ResolveClaim(_, i) => ClaimResolvedKeeps(s.fronts[w], i, backend);
        case SettleHandler(_, i) => HandlerSettledKeeps(s.fronts[w], i, backend);
      }
    }
  }

  lemma StepKeeps(s: System, step: Step, w: Label)
    requires Enabled(s, step) && WindowInvariant(s, w)
    ensures WindowInvariant(Next(s, step), w)
  {
    if step.OpenWindow? || step.BeginCall? || step.Push? || step.EndCall? {
      BackendStepKeeps(s, step, w);
    } else if step.DeliverEvent? {
      EventStepKeeps(s, step, w);
    } else if step.Drain? || step.ResolveClaim? || step.SettleHandler? {
      WorkStepKeeps(s, step, w);
    } else {
      FrontStepKeeps(s, step, w);
    }
  }

  lemma {:induction false} RunKeeps(states: seq<System>, steps: seq<Step>, n: nat, w: Label)
    requires IsRun(states, steps) && n < |states|
    ensures WindowInvariant(states[n], w)
  {
    if n > 0 {
      RunKeeps(states, steps, n - 1, w);
      assert Enabled(states[n - 1], steps[n - 1]);
      StepKeeps(states[n - 1], steps[n - 1], w);
    }
  }

  // ------------------------------------------------------------------ theorems

  /**
   * In every interleaving, at every moment and for every window: the requests handed to the handler are a prefix of
   * the requests accepted for that window, the rest is queued, in flight or pending in that order, and at most one
   * handler and one claim are running.
   */
  lemma DeliveredInOrderExactlyOnce(states: seq<System>, steps: seq<Step>, n: nat, w: Label)
    requires IsRun(states, steps) && n < |states| && w in states[n].fronts
    ensures var f := states[n].fronts[w];
            && ForWindow(states[n].accepted, w)
               == f.handed + f.queue + InFlight(f.claims) + ForWindow(states[n].pending, w)
            && f.handed <= ForWindow(states[n].accepted, w)
            && |f.running| <= 1 && |f.claims| <= 1
  {
    RunKeeps(states, steps, n, w);
  }

  /**
   * No wake-up is lost: whenever an installed, ready window has a request waiting in the backend, an emit or an event
   * is outstanding, or an undrained claim is in flight, or the claim-again flag is set.
   */
  lemma NoLostWakeUp(states: seq<System>, steps: seq<Step>, n: nat, w: Label)
    requires IsRun(states, steps) && n < |states| && w in states[n].fronts
    requires Waiting(states[n].fronts[w]) && ForWindow(states[n].pending, w) != []
    ensures EmitDue(states[n], w) || states[n].fronts[w].claims == [Requested] || states[n].fronts[w].claimAgain
  {
    RunKeeps(states, steps, n, w);
  }

  /** At rest nothing is left behind: with nothing in flight, a waiting window has been handed every accepted request. */
  lemma AtRestEverythingWasHandedOver(states: seq<System>, steps: seq<Step>, n: nat, w: Label)
    requires IsRun(states, steps) && n < |states| && w in states[n].fronts
    requires Waiting(states[n].fronts[w]) && !EmitDue(states[n], w)
    requires states[n].fronts[w].claims == [] && states[n].fronts[w].running == []
    ensures states[n].fronts[w].handed == ForWindow(states[n].accepted, w)
  {
    RunKeeps(states, steps, n, w);
  }

  // ------------------------------------------------------------------ the hook as the source writes it

  /** The refs of `useExternalOpenRequests`; ghost fields record what the environment sees. */
  class ExternalOpenRequestsHook {
    var queue: seq<Request>
    var processing: bool
    var claiming: bool
    var claimAgain: bool
    var ready: bool
    ghost var listener: Listener
    ghost var claims: seq<Claim>
    ghost var running: seq<Request>
    ghost var handed: seq<Request>

    ghost function View(): Front
      reads this
    {
      Front(queue, processing, claiming, claimAgain, ready, listener, claims, running, handed)
    }

    constructor (ready: bool)
      ensures View() == NewFront(ready)
    {
      queue, processing, claiming, claimAgain, this.ready := [], false, false, false, ready;
      listener, claims, running, handed := Absent, [], [], [];
    }

    /** Takes the next request off the queue and starts its handler, or ends the loop. */
    method Run() returns (started: bool)
      modifies this
      ensures View() == RunLoop(old(View()))
      ensures started <==> old(queue) != []
    {
      if |queue| > 0 {
        var request := queue[0];
        queue := queue[1..];
        running, handed := running + [request], handed + [request];
        return true;
      }
      processing := false;
      return false;
    }

    method Process()
      modifies this
      ensures View() == ProcessQueue(old(View()))
    {
      if processing { return; }
      processing := true;
      var _ := Run();
    }

    method Claim()
      modifies this
      ensures View() == ClaimNow(old(View()))
    {
      if !ready { return; }
      if claiming {
        claimAgain := true;
        return;
      }
      claiming := true;
      claims := claims + [Requested];
    }

    method OnClaimResolved(requests: seq<Request>, ghost i: nat)
      requires i < |claims| && claims[i] == Drained(requests)
      modifies this
      ensures View() == ClaimResolved(old(View()), i)
    {
      claims := Without(claims, i);
      if |requests| > 0 {
        queue := queue + requests;
        Process();
      }
      claiming := false;
      if claimAgain {
        claimAgain := false;
        Claim();
      }
    }

    method OnHandlerSettled(ghost i: nat)
      requires i < |running|
      modifies this
      ensures View() == HandlerSettled(old(View()), i)
    {
      running := Without(running, i);
      var _ := Run();
    }

    method SetReady(ready: bool)
      modifies this
      ensures View() == ReadySet(old(View()), ready)
    {
      this.ready := ready;
      if ready { Claim(); }
    }
  }
}
