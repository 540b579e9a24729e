/** `useRemoteStats`: the polling protocol with a one-off warm-up retry (src/hooks/useRemoteStats.ts). */
module RemoteStats {
  import opened Text
  import opened RemotePolling

  datatype Kind = Poll | WarmUp

  datatype Timer = Timer(session: Session, generation: nat, kind: Kind)

  /**
   * `poll` and `warmup` are the refs, `timers` what exists in the runtime, `retried` the session whose warm-up retry was
   * used; `warmups` counts the retries scheduled since the effect ran or data last came without the warming-up mark.
   */
  datatype Stats = Stats(
    core: Core, poll: Option<nat>, warmup: Option<nat>, timers: map<nat, Timer>, made: nat,
    retried: Option<Session>, warmups: multiset<Session>)

  function Initial(requested: Option<Session>): Stats {
    Stats(InitialCore(requested), None, None, map[], 0, None, multiset{})
  }

  function PollStopped(s: Stats): Stats {
    if s.poll.Some? then s.(poll := None, timers := s.timers - {s.poll.value}) else s
  }

  function WarmupStopped(s: Stats): Stats {
    if s.warmup.Some? then s.(warmup := None, timers := s.timers - {s.warmup.value}) else s
  }

  function PollStarted(s: Stats, session: Session, generation: nat): Stats {
    s.(poll := Some(s.made), timers := s.timers[s.made := Timer(session, generation, Poll)], made := s.made + 1)
  }

  function WarmupStarted(s: Stats, session: Session, generation: nat): Stats {
    s.(retried := Some(session), warmups := s.warmups + multiset{session},
       warmup := Some(s.made), timers := s.timers[s.made := Timer(session, generation, WarmUp)], made := s.made + 1)
  }

  function FetchStats(s: Stats, session: Session, generation: nat, manual: bool): Stats {
    s.(core := StartFetch(s.core, session, generation, manual))
  }

  /** Data marked "warming up" schedules one retry per session; data without the mark re-arms it. */
  function Responded(s: Stats, call: nat, outcome: Outcome): Stats
    requires call in s.core.calls
  {
    var f := s.core.calls[call];
    var s1 := s.(core := Respond(s.core, call, outcome));
    if !IsCurrent(s.core, f.session, f.generation) || outcome.Broke? then s1
    else
      var s2 := WarmupStopped(s1);
      if outcome.flag && s2.retried != Some(f.session) then WarmupStarted(s2, f.session, f.generation)
      else if !outcome.flag then s2.(retried := None, warmups := multiset{})
      else s2
  }

  function WarmupFired(s: Stats, timer: nat): Stats
    requires timer in s.timers
  {
    var t := s.timers[timer];
    FetchStats(s.(warmup := None, timers := s.timers - {timer}), t.session, t.generation, false)
  }

  function EffectRun(s: Stats): Stats {
    var s1 := WarmupStopped(PollStopped(s)).(retried := None, warmups := multiset{}, core := Flush(s.core));
    if s1.core.requested.Some? then PollStarted(s1, s1.core.requested.value, s1.core.generation) else s1
  }

  datatype Step =
    | RenderStep(requested: Option<Session>, intervalChanged: bool)
    | FlushStep
    | Tick(timer: nat)
    | WarmupTick(timer: nat)
    | Refresh(session: Session)
    | ResponseStep(call: nat, outcome: Outcome)

  predicate Enabled(s: Stats, step: Step) {
    match step
    case RenderStep(_, _) => s.core.flushed
    case FlushStep => !s.core.flushed
    case Tick(timer) => timer in s.timers && s.timers[timer].kind.Poll?
    case WarmupTick(timer) => timer in s.timers && s.timers[timer].kind.WarmUp?
    case Refresh(_) => true
    case ResponseStep(call, _) => call in s.core.calls
  }

  function Next(s: Stats, step: Step): Stats
    requires Enabled(s, step)
  {
    match step
    case RenderStep(session, intervalChanged) => s.(core := Render(s.core, session, intervalChanged))
    case FlushStep => EffectRun(s)
    case Tick(timer) => FetchStats(s, s.timers[timer].session, s.timers[timer].generation, false)
    case WarmupTick(timer) => WarmupFired(s, timer)
    case Refresh(session) => FetchStats(s, session, s.core.generation, true)
    case ResponseStep(call, outcome) => Responded(s, call, outcome)
  }

  predicate IsRun(states: seq<Stats>, steps: seq<Step>, requested: Option<Session>) {
    && |states| == |steps| + 1 && states[0] == Initial(requested)
    && forall i :: 0 <= i < |steps| ==> Enabled(states[i], steps[i]) && states[i + 1] == Next(states[i], steps[i])
  }

  // ------------------------------------------------------------------ invariant

  /** Each ref names the only live timer of its kind, and live timers are of the current generation. */
  ghost predicate TimersAreCurrent(s: Stats) {
    && (forall t :: t in s.timers ==>
          && s.timers[t].generation == s.core.generation && t < s.made
          && (s.timers[t].kind.Poll? ==> s.poll == Some(t))
          && (s.timers[t].kind.WarmUp? ==> s.warmup == Some(t)))
    && (s.poll.Some? ==> s.poll.value in s.timers && s.timers[s.poll.value].kind.Poll?)
    && (s.warmup.Some? ==> s.warmup.value in s.timers && s.timers[s.warmup.value].kind.WarmUp?)
  }

  /** A session has at most one retry on its account, and while it is requested the marker remembers it. */
  ghost predicate RetriesAreSingle(s: Stats) {
    && (s.core.flushed && s.retried.Some? ==> s.core.requested == s.retried)
    && (forall x :: s.warmups[x] <= 1)
    && (forall x :: x in s.warmups ==> s.retried == Some(x) || (!s.core.flushed && s.core.requested != Some(x)))
  }

  ghost predicate Invariant(s: Stats) {
    CoreInvariant(s.core) && TimersAreCurrent(s) && RetriesAreSingle(s)
  }

  lemma WarmupStoppedKeeps(s: Stats)
    requires TimersAreCurrent(s) && RetriesAreSingle(s)
    ensures TimersAreCurrent(WarmupStopped(s)) && RetriesAreSingle(WarmupStopped(s)) && WarmupStopped(s).warmup.None?
  {
  }

  lemma WarmupStartedKeeps(s: Stats, session: Session)
    requires TimersAreCurrent(s) && RetriesAreSingle(s) && s.warmup.None?
    requires s.core.requested == Some(session) && s.retried != Some(session)
    ensures var r := WarmupStarted(s, session, s.core.generation); TimersAreCurrent(r) && RetriesAreSingle(r)
  {
    assert session !in s.warmups;
  }

  lemma RespondedKeeps(s: Stats, call: nat, outcome: Outcome)
    requires Invariant(s) && call in s.core.calls
    ensures Invariant(Responded(s, call, outcome))
  {
    RespondKeeps(s.core, call, outcome);
    RespondFrame(s.core, call, outcome);
    var f := s.core.calls[call];
    var s1 := s.(core := Respond(s.core, call, outcome));
    assert TimersAreCurrent(s1) && RetriesAreSingle(s1);
    if IsCurrent(s.core, f.session, f.generation) && outcome.Got? {
      WarmupStoppedKeeps(s1);
      if outcome.flag && s.retried != Some(f.session) {
        WarmupStartedKeeps(WarmupStopped(s1), f.session);
      }
    }
  }

  /** Both timers stopped, everything forgotten: no timer is left. */
  lemma StoppedHasNoTimers(s: Stats)
    requires TimersAreCurrent(s)
    ensures var r := WarmupStopped(PollStopped(s)); r.timers == map[] && r.poll.None? && r.warmup.None? && r.made == s.made
  {
    assert forall t :: t in s.timers ==> s.poll == Some(t) || s.warmup == Some(t);
  }

  lemma FirstTimerIsCurrent(s: Stats, session: Session)
    requires s.timers == map[] && s.poll.None? && s.warmup.None? && s.retried.None? && s.warmups == multiset{}
    ensures TimersAreCurrent(s) && RetriesAreSingle(s)
    ensures var r := PollStarted(s, session, s.core.generation); TimersAreCurrent(r) && RetriesAreSingle(r)
  {
  }

  lemma EffectRunKeeps(s: Stats)
    requires Invariant(s)
    ensures Invariant(EffectRun(s))
  {
    FlushKeeps(s.core);
    StoppedHasNoTimers(s);
    var s1 := WarmupStopped(PollStopped(s)).(retried := None, warmups := multiset{}, core := Flush(s.core));
    if s1.core.requested.Some? {
      FirstTimerIsCurrent(s1, s1.core.requested.value);
    }
  }

  lemma StepKeeps(s: Stats, step: Step)
    requires Invariant(s) && Enabled(s, step)
    ensures Invariant(Next(s, step))
  {
    match step
    case RenderStep(session, intervalChanged) => RenderKeeps(s.core, session, intervalChanged);
    case FlushStep => EffectRunKeeps(s);
    case Tick(timer) => StartFetchKeeps(s.core, s.timers[timer].session, s.timers[timer].generation, false);
    case WarmupTick(timer) => StartFetchKeeps(s.core, s.timers[timer].session, s.timers[timer].generation, false);
    case Refresh(session) => StartFetchKeeps(s.core, session, s.core.generation, true);
    case ResponseStep(call, outcome) => RespondedKeeps(s, call, outcome);
  }

  lemma {:induction false} RunKeeps(states: seq<Stats>, steps: seq<Step>, requested: Option<Session>, n: nat)
    requires IsRun(states, steps, requested) && n < |states|
    ensures Invariant(states[n])
  {
    if n > 0 {
      RunKeeps(states, steps, requested, n - 1);
      StepKeeps(states[n - 1], steps[n - 1]);
    }
  }

  // ------------------------------------------------------------------ theorems

  /** Visible stats belong to the requested session and the current generation, and are gone after three failures in a row. */
  lemma VisibleStatsAreCurrent(states: seq<Stats>, steps: seq<Step>, requested: Option<Session>, n: nat)
    requires IsRun(states, steps, requested) && n < |states|
    ensures var c := states[n].core;
            && (Visible(c).Some? ==> c.requested == Some(Visible(c).value.session) && Visible(c).value.generation == c.generation)
            && (|c.outcomes| >= 3 && (forall i :: |c.outcomes| - 3 <= i < |c.outcomes| ==> !c.outcomes[i]) ==> Visible(c).None?)
  {
    RunKeeps(states, steps, requested, n);
    var c := states[n].core;
    if |c.outcomes| >= 3 && (forall i :: |c.outcomes| - 3 <= i < |c.outcomes| ==> !c.outcomes[i]) {
      ThreeFailuresHideEverything(c);
    }
  }

  /**
   * At most one call of the current generation is in flight; at most one poll and one warm-up timer are live, both current; and
   * a session gets at most one warm-up retry until the effect reruns or data comes without the warming-up mark.
   */
  lemma OneCallOneRetry(states: seq<Stats>, steps: seq<Step>, requested: Option<Session>, n: nat)
    requires IsRun(states, steps, requested) && n < |states|
    ensures var s := states[n];
            && (forall j, k :: OfCurrentGeneration(s.core, j) && OfCurrentGeneration(s.core, k) ==> j == k)
            && (forall t, u :: t in s.timers && u in s.timers && s.timers[t].kind == s.timers[u].kind ==> t == u)
            && (forall t :: t in s.timers ==> s.timers[t].generation == s.core.generation)
            && (forall x :: s.warmups[x] <= 1)
  {
    RunKeeps(states, steps, requested, n);
  }

  // ------------------------------------------------------------------ the hook as the source writes it

  /** The hook's own refs on top of the shared ones; ghost fields are the runtime around it. */
  class RemoteStatsHook {
    const shared: PollingRefs
    var poll: Option<nat>
    var warmup: Option<nat>
    var retried: Option<Session>
    var made: nat
    ghost var timers: map<nat, Timer>
    ghost var warmups: multiset<Session>

    ghost function State(): Stats
      reads this, shared
    {
      Stats(shared.Shared(), poll, warmup, timers, made, retried, warmups)
    }

    constructor (requested: Option<Session>)
      ensures State() == Initial(requested) && fresh(shared)
    {
      shared := new PollingRefs(requested);
      poll, warmup, retried, made := None, None, None, 0;
      timers, warmups := map[], multiset{};
    }

    method ClearWarmup()
      modifies this`warmup, this`timers
      ensures State() == WarmupStopped(old(State()))
    {
      if warmup.Some? {
        timers := timers - {warmup.value};
        warmup := None;
      }
    }

    method StartWarmup(session: Session, gen: nat)
      modifies this`retried, this`warmups, this`warmup, this`timers, this`made
      ensures State() == WarmupStarted(old(State()), session, gen)
    {
      retried := Some(session);
      warmups := warmups + multiset{session};
      warmup := Some(made);
      timers := timers[made := Timer(session, gen, WarmUp)];
      made := made + 1;
    }

    method OnResponse(f: Fetch, outcome: Outcome, ghost call: nat)
      requires call in shared.calls && shared.calls[call] == f
      modifies this, shared
      ensures State() == Responded(old(State()), call, outcome)
    {
      var current := shared.OnResponse(f, outcome, call);
      if !current || outcome.Broke? { return; }
      ClearWarmup();
      if outcome.flag && retried != Some(f.session) {
        StartWarmup(f.session, f.generation);
      } else if !outcome.flag {
        retried, warmups := None, multiset{};
      }
    }

    method OnWarmupTimer(session: Session, gen: nat, ghost timer: nat)
      requires timer in timers && timers[timer] == Timer(session, gen, WarmUp)
      modifies this, shared
      ensures State() == WarmupFired(old(State()), timer)
    {
      warmup := None;
      timers := timers - {timer};
      if !(shared.requested == Some(session) && shared.generation == gen) { return; }
      shared.Begin(session, gen, false);
    }

    method RunEffects()
      modifies this, shared
      ensures State() == EffectRun(old(State()))
    {
      if poll.Some? {
        timers := timers - {poll.value};
        poll := None;
      }
      ClearWarmup();
      retried, warmups := None, multiset{};
      shared.Restart();
      if shared.requested.Some? {
        poll := Some(made);
        timers := timers[made := Timer(shared.requested.value, shared.generation, Poll)];
        made := made + 1;
      }
    }
  }
}
