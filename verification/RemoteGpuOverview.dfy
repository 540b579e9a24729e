/** `useRemoteGpuOverview`: polling that stops itself when the session has no GPU (src/hooks/useRemoteGpuOverview.ts). */
module RemoteGpuOverview {
  import opened Text
  import opened RemotePolling

  datatype Timer = Timer(session: Session, generation: nat)

  /** The continuation of a manual refresh, waiting to run: the call it belonged to and whether data said "available". */
  datatype Continuation = Continuation(session: Session, generation: nat, available: bool)

  /**
   * `poll` is the ref, `timers` the intervals that exist in the runtime; `continuations` are `.then` callbacks not run yet.
   * `made` counts timers to give each its own handle.
   */
  datatype Gpu = Gpu(
    core: Core, poll: Option<nat>, timers: map<nat, Timer>, made: nat, unavailable: Option<Session>,
    continuations: seq<Continuation>)

  function Initial(requested: Option<Session>): Gpu {
    Gpu(InitialCore(requested), None, map[], 0, None, [])
  }

  function PollStopped(g: Gpu): Gpu {
    if g.poll.Some? then g.(poll := None, timers := g.timers - {g.poll.value}) else g
  }

  function PollStarted(g: Gpu, session: Session, generation: nat): Gpu {
    g.(poll := Some(g.made), timers := g.timers[g.made := Timer(session, generation)], made := g.made + 1)
  }

  function FetchOverview(g: Gpu, session: Session, generation: nat, manual: bool): Gpu {
    if !manual && g.unavailable == Some(session) then g
    else g.(core := StartFetch(g.core, session, generation, manual))
  }

  function Responded(g: Gpu, call: nat, outcome: Outcome): Gpu
    requires call in g.core.calls
  {
    var f := g.core.calls[call];
    var g1 := g.(core := Respond(g.core, call, outcome));
    if !IsCurrent(g.core, f.session, f.generation) || outcome.Broke? then g1
    else
      var g2 := if outcome.flag then g1.(unavailable := None) else PollStopped(g1.(unavailable := Some(f.session)));
      if f.manual then g2.(continuations := g2.continuations + [Continuation(f.session, f.generation, outcome.flag)]) else g2
  }

  function Continued(g: Gpu, i: nat): Gpu
    requires i < |g.continuations|
  {
    var k := g.continuations[i];
    var g1 := g.(continuations := g.continuations[..i] + g.continuations[i + 1..]);
    if !k.available || !IsCurrent(g.core, k.session, k.generation) || g.poll.Some? then g1
    else PollStarted(g1, k.session, k.generation)
  }

  /** Cleanup and effect: stop the old timer, start over, fetch once, poll. */
  function EffectRun(g: Gpu): Gpu {
    var g1 := PollStopped(g).(unavailable := None, core := Flush(g.core));
    if g1.core.requested.Some? then PollStarted(g1, g1.core.requested.value, g1.core.generation) else g1
  }

  datatype Step =
    | RenderStep(requested: Option<Session>, intervalChanged: bool)
    | FlushStep
    | Tick(timer: nat)
    | Refresh(session: Session)
    | ResponseStep(call: nat, outcome: Outcome)
    | Continue(continuation: nat)

  predicate Enabled(g: Gpu, step: Step) {
    match step
    case RenderStep(_, _) => g.core.flushed
    case FlushStep => !g.core.flushed
    case Tick(timer) => timer in g.timers
    case Refresh(_) => true
    case ResponseStep(call, _) => call in g.core.calls
    case Continue(i) => i < |g.continuations|
  }

  /** A refresh may come from the callback of any earlier render, so its session is arbitrary. */
  function Next(g: Gpu, step: Step): Gpu
    requires Enabled(g, step)
  {
    match step
    case RenderStep(session, intervalChanged) => g.(core := Render(g.core, session, intervalChanged))
    case FlushStep => EffectRun(g)
    case Tick(timer) => FetchOverview(g, g.timers[timer].session, g.timers[timer].generation, false)
    case Refresh(session) => FetchOverview(g, session, g.core.generation, true)
    case ResponseStep(call, outcome) => Responded(g, call, outcome)
    case Continue(i) => Continued(g, i)
  }

  predicate IsRun(states: seq<Gpu>, steps: seq<Step>, requested: Option<Session>) {
    && |states| == |steps| + 1 && states[0] == Initial(requested)
    && forall i :: 0 <= i < |steps| ==> Enabled(states[i], steps[i]) && states[i + 1] == Next(states[i], steps[i])
  }

  // ------------------------------------------------------------------ invariant

  /** The ref names the only timer there is, and that timer is of the current generation. */
  ghost predicate OneTimer(g: Gpu) {
    && (forall t :: t in g.timers ==> g.poll == Some(t) && g.timers[t].generation == g.core.generation)
    && (g.poll.Some? ==> g.poll.value in g.timers && g.poll.value < g.made)
  }

  /** No automatic call is in flight for a session known to be unavailable, which is the requested one between commits. */
  ghost predicate NoIdleCall(g: Gpu) {
    && (forall k :: k in g.core.calls ==> g.core.calls[k].generation == g.core.generation ==>
          g.core.calls[k].manual || g.unavailable != Some(g.core.calls[k].session))
    && (g.core.flushed && g.unavailable.Some? ==> g.core.requested == g.unavailable)
  }

  ghost predicate Invariant(g: Gpu) {
    CoreInvariant(g.core) && OneTimer(g) && NoIdleCall(g)
  }

  lemma EffectRunKeeps(g: Gpu)
    requires Invariant(g)
    ensures Invariant(EffectRun(g))
  {
    FlushKeeps(g.core);
    assert EffectRun(g).core == Flush(g.core);
  }

  lemma RespondedKeeps(g: Gpu, call: nat, outcome: Outcome)
    requires Invariant(g) && call in g.core.calls
    ensures Invariant(Responded(g, call, outcome))
  {
    RespondKeeps(g.core, call, outcome);
    RespondFrame(g.core, call, outcome);
  }

  lemma FetchKeeps(g: Gpu, session: Session, generation: nat, manual: bool)
    requires Invariant(g)
    ensures Invariant(FetchOverview(g, session, generation, manual))
  {
    StartFetchKeeps(g.core, session, generation, manual);
  }

  lemma StepKeeps(g: Gpu, step: Step)
    requires Invariant(g) && Enabled(g, step)
    ensures Invariant(Next(g, step))
  {
    match step
    case RenderStep(session, intervalChanged) => RenderKeeps(g.core, session, intervalChanged);
    case FlushStep => EffectRunKeeps(g);
    case Tick(timer) => FetchKeeps(g, g.timers[timer].session, g.timers[timer].generation, false);
    case Refresh(session) => FetchKeeps(g, session, g.core.generation, true);
    case ResponseStep(call, outcome) => RespondedKeeps(g, call, outcome);
    case Continue(i) =>
  }

  lemma {:induction false} RunKeeps(states: seq<Gpu>, steps: seq<Step>, requested: Option<Session>, n: nat)
    requires IsRun(states, steps, requested) && n < |states|
    ensures Invariant(states[n])
  {
    if n > 0 {
      RunKeeps(states, steps, requested, n - 1);
      StepKeeps(states[n - 1], steps[n - 1]);
    }
  }

  // ------------------------------------------------------------------ theorems

  /**
   * Whatever the order of session switches, interval changes, polls, refreshes and late responses: visible data was fetched
   * for the requested session under the current generation, and is gone after three failures in a row.
   */
  lemma VisibleDataIsCurrent(states: seq<Gpu>, steps: seq<Step>, requested: Option<Session>, n: nat)
    requires IsRun(states, steps, requested) && n < |states|
    ensures var c := states[n].core;
            && (Visible(c).Some? ==> c.requested == Some(Visible(c).value.session) && Visible(c).value.generation == c.generation)
            && (|c.outcomes| >= 3 && (forall i :: |c.outcomes| - 3 <= i < |c.outcomes| ==> !c.outcomes[i]) ==> Visible(c).None?)
  {
    RunKeeps(states, steps, requested, n);
    var c := states[n].core;
    if Visible(c).Some? {
      VisibleIsCurrent(c);
    }
    if |c.outcomes| >= 3 && (forall i :: |c.outcomes| - 3 <= i < |c.outcomes| ==> !c.outcomes[i]) {
      ThreeFailuresHideEverything(c);
    }
  }

  /** At most one call of the current generation is in flight and at most one timer is live; that timer is current. */
  lemma OneCallOneTimer(states: seq<Gpu>, steps: seq<Step>, requested: Option<Session>, n: nat)
    requires IsRun(states, steps, requested) && n < |states|
    ensures var g := states[n];
            && (forall j, k :: OfCurrentGeneration(g.core, j) && OfCurrentGeneration(g.core, k) ==> j == k)
            && (forall s, t :: s in g.timers && t in g.timers ==> s == t)
            && (forall t :: t in g.timers ==> g.timers[t].generation == g.core.generation)
  {
    RunKeeps(states, steps, requested, n);
  }

  /** The step reruns the effect, or is a manual refresh that finds the session available. */
  predicate Reopens(g: Gpu, step: Step)
    requires Enabled(g, step)
  {
    step.FlushStep? || (step.ResponseStep? && g.core.calls[step.call].manual && step.outcome == Got(true))
  }

  /** Found unavailable, or already switched away from. */
  predicate Closed(g: Gpu, session: Session) {
    g.unavailable == Some(session) || (!g.core.flushed && g.core.requested != Some(session))
  }

  /** Between two moments, no automatic call was issued for the session. */
  ghost predicate OnlyManual(before: seq<Fetch>, after: seq<Fetch>, session: Session) {
    before <= after && forall i :: |before| <= i < |after| ==> after[i].manual || after[i].session != session
  }

  lemma OnlyManualChains(a: seq<Fetch>, b: seq<Fetch>, c: seq<Fetch>, session: Session)
    requires OnlyManual(a, b, session) && OnlyManual(b, c, session)
    ensures OnlyManual(a, c, session)
  {
    assert forall i :: 0 <= i < |b| ==> c[i] == b[i];
  }

  lemma StaysClosed(g: Gpu, step: Step, session: Session)
    requires Invariant(g) && Enabled(g, step) && Closed(g, session) && !Reopens(g, step)
    ensures Closed(Next(g, step), session)
    ensures OnlyManual(g.core.issued, Next(g, step).core.issued, session)
  {
    if step.ResponseStep? {
      RespondFrame(g.core, step.call, step.outcome);
    }
  }

  lemma StepStaysClosed(states: seq<Gpu>, steps: seq<Step>, requested: Option<Session>, i: nat, session: Session)
    requires IsRun(states, steps, requested) && i < |steps| && Closed(states[i], session) && !Reopens(states[i], steps[i])
    ensures Closed(states[i + 1], session) && OnlyManual(states[i].core.issued, states[i + 1].core.issued, session)
  {
    RunKeeps(states, steps, requested, i);
    StaysClosed(states[i], steps[i], session);
  }

  lemma {:induction false} ClosedChains(states: seq<Gpu>, m: nat, n: nat, session: Session)
    requires m <= n < |states| && Closed(states[m], session)
    requires forall i :: m <= i < n && Closed(states[i], session) ==>
               Closed(states[i + 1], session) && OnlyManual(states[i].core.issued, states[i + 1].core.issued, session)
    ensures Closed(states[n], session) && OnlyManual(states[m].core.issued, states[n].core.issued, session)
  {
    if m < n {
      ClosedChains(states, m, n - 1, session);
      OnlyManualChains(states[m].core.issued, states[n - 1].core.issued, states[n].core.issued, session);
    }
  }

  /**
   * Once a session is found unavailable, no automatic call is issued for it until the effect reruns or a manual refresh finds
   * it available.
   */
  lemma UnavailableStopsPolling(
    states: seq<Gpu>, steps: seq<Step>, requested: Option<Session>, m: nat, n: nat, session: Session)
    requires IsRun(states, steps, requested) && m <= n < |states|
    requires states[m].unavailable == Some(session)
    requires forall i :: m <= i < n ==> !Reopens(states[i], steps[i])
    ensures Closed(states[n], session)
    ensures OnlyManual(states[m].core.issued, states[n].core.issued, session)
  {
    assert Closed(states[m], session) && |states| == |steps| + 1;
    forall i | m <= i < n && Closed(states[i], session)
      ensures Closed(states[i + 1], session) && OnlyManual(states[i].core.issued, states[i + 1].core.issued, session)
    {
      StepStaysClosed(states, steps, requested, i, session);
    }
    ClosedChains(states, m, n, session);
  }

  // ------------------------------------------------------------------ the hook as the source writes it

  /** The hook's own refs on top of the shared ones; ghost fields are the runtime around it. */
  class RemoteGpuOverviewHook {
    const shared: PollingRefs
    var poll: Option<nat>
    var unavailable: Option<Session>
    var made: nat
    ghost var timers: map<nat, Timer>
    ghost var continuations: seq<Continuation>

    ghost function State(): Gpu
      reads this, shared
    {
      Gpu(shared.Shared(), poll, timers, made, unavailable, continuations)
    }

    constructor (requested: Option<Session>)
      ensures State() == Initial(requested) && fresh(shared)
    {
      shared := new PollingRefs(requested);
      poll, unavailable, made := None, None, 0;
      timers, continuations := map[], [];
    }

    method ClearPoll()
      modifies this`poll, this`timers
      ensures State() == PollStopped(old(State()))
    {
      if poll.Some? {
        timers := timers - {poll.value};
        poll := None;
      }
    }

    method StartPoll(session: Session, gen: nat)
      modifies this`poll, this`timers, this`made
      ensures State() == PollStarted(old(State()), session, gen)
    {
      poll := Some(made);
      timers := timers[made := Timer(session, gen)];
      made := made + 1;
    }

    method FetchIfDue(session: Session, gen: nat, manual: bool)
      modifies shared
      ensures State() == FetchOverview(old(State()), session, gen, manual)
    {
      if !manual && unavailable == Some(session) { return; }
      shared.Begin(session, gen, manual);
    }

    method OnResponse(f: Fetch, outcome: Outcome, ghost call: nat)
      requires call in shared.calls && shared.calls[call] == f
      modifies this, shared
      ensures State() == Responded(old(State()), call, outcome)
    {
      var current := shared.OnResponse(f, outcome, call);
      if !current || outcome.Broke? { return; }
      if outcome.flag {
        unavailable := None;
      } else {
        unavailable := Some(f.session);
        ClearPoll();
      }
      if f.manual {
        continuations := continuations + [Continuation(f.session, f.generation, outcome.flag)];
      }
    }

    /** The `.then` of a manual refresh: polling starts again if the session turned out to be available. */
    method OnContinue(k: Continuation, ghost i: nat)
      requires i < |continuations| && continuations[i] == k
      modifies this
      ensures State() == Continued(old(State()), i)
    {
      continuations := continuations[..i] + continuations[i + 1..];
      if !k.available || !(shared.requested == Some(k.session) && shared.generation == k.generation) || poll.Some? { return; }
      StartPoll(k.session, k.generation);
    }

    method RunEffects()
      modifies this, shared
      ensures State() == EffectRun(old(State()))
    {
      ClearPoll();
      unavailable := None;
      shared.Restart();
      if shared.requested.Some? {
        StartPoll(shared.requested.value, shared.generation);
      }
    }
  }
}
