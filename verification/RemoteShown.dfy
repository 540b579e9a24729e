/** What `useRemoteGpuOverview` shows and fetches, from the history of its steps. */
module RemoteGpuShown {
  import opened Text
  import opened RemotePolling
  import opened RemoteHistory
  import opened RemoteGpuOverview

  function SignalOf(g: Gpu, step: Step): Signal
    requires Enabled(g, step)
  {
    match step
    case FlushStep => Restarted
    case ResponseStep(call, outcome) => AnswerSignal(g.core, call, outcome)
    case _ => Quiet
  }

  function History(states: seq<Gpu>, steps: seq<Step>, requested: Option<Session>, n: nat): seq<Signal>
    requires IsRun(states, steps, requested) && n < |states|
  {
    if n == 0 then [] else History(states, steps, requested, n - 1) + [SignalOf(states[n - 1], steps[n - 1])]
  }

  /** The session whose last success since the restart said that there is no GPU. */
  function LastUnavailable(signals: seq<Signal>): Option<Session> {
    if signals == [] then None
    else match signals[|signals| - 1]
      case Restarted => None
      case Answered(f, Got(available)) => if available then None else Some(f.session)
      case _ => LastUnavailable(signals[..|signals| - 1])
  }

  predicate Polls(g: Gpu, timer: Timer) { exists t :: t in g.timers && g.timers[t] == timer }

  predicate WillPoll(g: Gpu, k: Continuation) { k in g.continuations && k.available }

  /** Timers poll the requested session; without a timer the session is unavailable or polling is about to start again. */
  ghost predicate PollsOrWaits(g: Gpu) {
    g.core.flushed ==>
      && (forall t :: t in g.timers ==> g.core.requested == Some(g.timers[t].session))
      && (g.core.requested.Some? && g.poll.None? && g.unavailable.None? ==>
            WillPoll(g, Continuation(g.core.requested.value, g.core.generation, true)))
  }

  ghost predicate Follows(g: Gpu, signals: seq<Signal>) {
    && Invariant(g) && Tracks(g.core, signals) && Live(g.core) && PollsOrWaits(g)
    && g.unavailable == LastUnavailable(signals)
  }

  lemma EffectRunFollows(g: Gpu, signals: seq<Signal>)
    requires Invariant(g)
    ensures Follows(EffectRun(g), signals + [Restarted])
  {
    EffectRunKeeps(g);
    FlushTracks(g.core, signals);
    FlushIsLive(g.core);
    OneMore(signals, Restarted);
  }

  lemma FetchFollows(g: Gpu, session: Session, generation: nat, manual: bool, signals: seq<Signal>)
    requires Follows(g, signals)
    ensures Follows(FetchOverview(g, session, generation, manual), signals + [Quiet])
  {
    FetchKeeps(g, session, generation, manual);
    StartFetchTracks(g.core, session, generation, manual, signals);
    StartFetchIsLive(g.core, session, generation, manual);
    QuietTracks(g.core, g.core, signals);
    OneMore(signals, Quiet);
    assert StartFetch(g.core, session, generation, manual).flushed == g.core.flushed;
  }

  /** Only a manual call can find a session available that was not. */
  lemma AnsweredPolls(g: Gpu, call: nat, outcome: Outcome)
    requires Invariant(g) && PollsOrWaits(g) && call in g.core.calls
    ensures PollsOrWaits(Responded(g, call, outcome))
  {
    RespondFrame(g.core, call, outcome);
    var f, r := g.core.calls[call], Responded(g, call, outcome);
    if IsCurrent(g.core, f.session, f.generation) && outcome == Got(true) && f.manual {
      assert Continuation(f.session, f.generation, true) in r.continuations;
    }
    assert forall k :: k in g.continuations ==> k in r.continuations;
  }

  lemma RespondedFollows(g: Gpu, call: nat, outcome: Outcome, signals: seq<Signal>)
    requires Follows(g, signals) && call in g.core.calls
    ensures Follows(Responded(g, call, outcome), signals + [AnswerSignal(g.core, call, outcome)])
  {
    RespondedKeeps(g, call, outcome);
    RespondTracks(g.core, call, outcome, signals);
    RespondIsLive(g.core, call, outcome);
    AnsweredPolls(g, call, outcome);
    OneMore(signals, AnswerSignal(g.core, call, outcome));
  }

  lemma ContinuedPolls(g: Gpu, i: nat)
    requires Invariant(g) && PollsOrWaits(g) && i < |g.continuations|
    ensures PollsOrWaits(Continued(g, i))
  {
    var r := Continued(g, i);
    if g.core.flushed && g.core.requested.Some? {
      var k := Continuation(g.core.requested.value, g.core.generation, true);
      if k in g.continuations && g.continuations[i] != k {
        var j :| 0 <= j < |g.continuations| && g.continuations[j] == k;
        assert r.continuations[if j < i then j else j - 1] == k;
      }
    }
  }

  lemma ContinuedFollows(g: Gpu, i: nat, signals: seq<Signal>)
    requires Follows(g, signals) && i < |g.continuations|
    ensures Follows(Continued(g, i), signals + [Quiet])
  {
    ContinuedPolls(g, i);
    QuietTracks(g.core, g.core, signals);
    OneMore(signals, Quiet);
    assert Continued(g, i).core == g.core && OneTimer(Continued(g, i));
  }

  lemma RenderedFollows(g: Gpu, session: Option<Session>, intervalChanged: bool, signals: seq<Signal>)
    requires Follows(g, signals) && g.core.flushed
    ensures Follows(g.(core := Render(g.core, session, intervalChanged)), signals + [Quiet])
  {
    RenderKeeps(g.core, session, intervalChanged);
    RenderTracks(g.core, session, intervalChanged, signals);
    RenderIsLive(g.core, session, intervalChanged);
    OneMore(signals, Quiet);
  }

  lemma StepFollows(g: Gpu, step: Step, signals: seq<Signal>)
    requires Follows(g, signals) && Enabled(g, step)
    ensures Follows(Next(g, step), signals + [SignalOf(g, step)])
  {
    match step
    case RenderStep(session, intervalChanged) => RenderedFollows(g, session, intervalChanged, signals);
    case FlushStep => EffectRunFollows(g, signals);
    case Tick(timer) => FetchFollows(g, g.timers[timer].session, g.timers[timer].generation, false, signals);
    case Refresh(session) => FetchFollows(g, session, g.core.generation, true, signals);
    case ResponseStep(call, outcome) => RespondedFollows(g, call, outcome, signals);
    case Continue(i) => ContinuedFollows(g, i, signals);
  }

  lemma {:induction false} RunFollows(states: seq<Gpu>, steps: seq<Step>, requested: Option<Session>, n: nat)
    requires IsRun(states, steps, requested) && n < |states|
    ensures Follows(states[n], History(states, steps, requested, n))
  {
    if n > 0 {
      RunFollows(states, steps, requested, n - 1);
      assert Enabled(states[n - 1], steps[n - 1]);
      StepFollows(states[n - 1], steps[n - 1], History(states, steps, requested, n - 1));
    }
  }

  // ------------------------------------------------------------------ theorems

  /**
   * At every moment of every run the hook shows the data of the last success since the effect ran, if it is for the requested
   * session and no three failures in a row came after it; it reports an error exactly when the last answer that counted was a
   * failure; and once the effects of the last render have run, the spinner turns exactly while a manual refresh is under way.
   */
  lemma OverviewIsLastGood(states: seq<Gpu>, steps: seq<Step>, requested: Option<Session>, n: nat)
    requires IsRun(states, steps, requested) && n < |states|
    ensures var c, signals := states[n].core, History(states, steps, requested, n);
            && Visible(c) == Shown(signals, c.requested)
            && (VisibleError(c) <==> c.requested.Some? && LastFailed(signals) == c.requested)
            && (VisibleRefreshing(c) ==> ManualUnderWay(c)) && (c.flushed && ManualUnderWay(c) ==> VisibleRefreshing(c))
  {
    RunFollows(states, steps, requested, n);
    TrackedIsShown(states[n].core, History(states, steps, requested, n));
  }

  /** A success for the requested session under the current generation is shown at once. */
  lemma SuccessIsVisible(states: seq<Gpu>, steps: seq<Step>, requested: Option<Session>, i: nat, call: nat, flag: bool)
    requires IsRun(states, steps, requested) && i < |steps| && steps[i] == ResponseStep(call, Got(flag))
    requires call in states[i].core.calls
    requires var c := states[i].core; c.requested == Some(c.calls[call].session) && c.generation == c.calls[call].generation
    ensures var f := states[i].core.calls[call];
            Visible(states[i + 1].core) == Some(Data(f.session, f.generation, flag)) && !VisibleError(states[i + 1].core)
  {
    OverviewIsLastGood(states, steps, requested, i + 1);
    RespondFrame(states[i].core, call, Got(flag));
    SuccessIsShown(History(states, steps, requested, i), states[i].core.calls[call], flag);
    OneMore(History(states, steps, requested, i), Answered(states[i].core.calls[call], Got(flag)));
    assert states[i + 1] == Next(states[i], steps[i]);
  }

  /** A tick, a click, a continuation, an answer that no longer counts, or a first or second failure in a row. */
  predicate Harmless(g: Gpu, step: Step, failures: nat)
    requires Enabled(g, step)
  {
    match step
    case Tick(_) => true
    case Refresh(_) => true
    case Continue(_) => true
    case ResponseStep(call, outcome) =>
      || !(g.core.requested == Some(g.core.calls[call].session) && g.core.generation == g.core.calls[call].generation)
      || (outcome == Broke && failures < 2)
    case _ => false
  }

  lemma HarmlessStepsKeepTheData(states: seq<Gpu>, steps: seq<Step>, requested: Option<Session>, i: nat)
    requires IsRun(states, steps, requested) && i < |steps| && Enabled(states[i], steps[i])
    requires Harmless(states[i], steps[i], FailuresInARow(History(states, steps, requested, i)))
    ensures Visible(states[i + 1].core) == Visible(states[i].core)
  {
    OverviewIsLastGood(states, steps, requested, i);
    OverviewIsLastGood(states, steps, requested, i + 1);
    var signals, c := History(states, steps, requested, i), states[i].core;
    QuietKeepsShown(signals, c.requested);
    assert states[i + 1] == Next(states[i], steps[i]);
    if steps[i].ResponseStep? {
      RespondFrame(c, steps[i].call, steps[i].outcome);
      if SignalOf(states[i], steps[i]).Answered? { FewFailuresKeepShown(signals, c.calls[steps[i].call]); }
    }
  }

  /** After three failures in a row, counted in the history, nothing is shown. */
  lemma ThreeFailuresHide(states: seq<Gpu>, steps: seq<Step>, requested: Option<Session>, n: nat)
    requires IsRun(states, steps, requested) && n < |states| && FailuresInARow(History(states, steps, requested, n)) >= 3
    ensures Visible(states[n].core) == None
  {
    OverviewIsLastGood(states, steps, requested, n);
    ManyFailuresHide(History(states, steps, requested, n));
  }

  /**
   * Running the effect fetches and polls for the requested session. From then on the session is polled, unless its last success said
   * that it has no GPU or a manual refresh has just found it again; and a disabled hook has no timer.
   */
  lemma RequestedSessionIsPolled(states: seq<Gpu>, steps: seq<Step>, requested: Option<Session>, n: nat)
    requires IsRun(states, steps, requested) && n < |states| && states[n].core.flushed
    ensures var g, signals := states[n], History(states, steps, requested, n);
            match g.core.requested
            case None => g.timers == map[]
            case Some(s) =>
              || Polls(g, Timer(s, g.core.generation)) || LastUnavailable(signals) != None
              || WillPoll(g, Continuation(s, g.core.generation, true))
    ensures n > 0 && steps[n - 1] == FlushStep && states[n].core.requested.Some? ==>
              var g := states[n];
              var s := g.core.requested.value;
              && Polls(g, Timer(s, g.core.generation)) && UnderWay(g.core, Fetch(s, g.core.generation, false))
              && g.core.generation > states[n - 1].core.generation
  {
    RunFollows(states, steps, requested, n);
    var g := states[n];
    if g.core.requested.None? {
      assert forall t :: t !in g.timers;
    } else if g.poll.Some? {
      assert g.timers[g.poll.value] == Timer(g.core.requested.value, g.core.generation);
    }
    if n > 0 && steps[n - 1] == FlushStep {
      RunFollows(states, steps, requested, n - 1);
      FlushIsLive(states[n - 1].core);
      FlushKeeps(states[n - 1].core);
      assert Enabled(states[n - 1], steps[n - 1]) && g == Next(states[n - 1], steps[n - 1]);
      assert g.core == Flush(states[n - 1].core);
    }
  }

  /** A success that says there is no GPU stops the poll timer; a success that says there is one leaves the timers as they are. */
  lemma AnswersStopOrKeepPolling(states: seq<Gpu>, steps: seq<Step>, requested: Option<Session>, i: nat, call: nat, available: bool)
    requires IsRun(states, steps, requested) && i < |steps| && steps[i] == ResponseStep(call, Got(available))
    requires call in states[i].core.calls
    requires var c := states[i].core; c.requested == Some(c.calls[call].session) && c.generation == c.calls[call].generation
    ensures states[i + 1].timers == if available then states[i].timers else map[]
  {
    RunFollows(states, steps, requested, i);
    RunFollows(states, steps, requested, i + 1);
    assert states[i + 1] == Next(states[i], steps[i]);
    var timers := states[i + 1].timers;
    if !available { assert forall t :: t !in timers; }
  }

  /** A tick or a click makes its call exactly when it is due. */
  lemma TicksAndClicksFetch(states: seq<Gpu>, steps: seq<Step>, requested: Option<Session>, i: nat)
    requires IsRun(states, steps, requested) && i < |steps|
    ensures var g, h := states[i], states[i + 1];
            match steps[i]
            case Tick(t) =>
              t in g.timers &&
              var s := g.timers[t].session;
              if g.core.requested == Some(s) && !Busy(g.core) && LastUnavailable(History(states, steps, requested, i)) != Some(s)
              then UnderWay(h.core, Fetch(s, g.core.generation, false)) && h.core.issued == g.core.issued + [Fetch(s, g.core.generation, false)]
              else h.core.calls == g.core.calls && h.core.issued == g.core.issued
            case Refresh(s) =>
              if g.core.requested == Some(s) && !Busy(g.core)
              then UnderWay(h.core, Fetch(s, g.core.generation, true)) && h.core.issued == g.core.issued + [Fetch(s, g.core.generation, true)]
              else h.core.calls == g.core.calls && h.core.issued == g.core.issued
            case _ => true
  {
    RunFollows(states, steps, requested, i);
    var g := states[i];
    assert Enabled(g, steps[i]) && states[i + 1] == Next(g, steps[i]);
    match steps[i]
    case Tick(t) => StartFetchIssues(g.core, g.timers[t].session, g.timers[t].generation, false);
    case Refresh(s) => StartFetchIssues(g.core, s, g.core.generation, true);
    case _ =>
  }
}

/** What `useRemoteStats` shows and fetches, from the history of its steps. */
module RemoteStatsShown {
  import opened Text
  import opened RemotePolling
  import opened RemoteHistory
  import opened RemoteStats

  function SignalOf(s: Stats, step: Step): Signal
    requires Enabled(s, step)
  {
    match step
    case FlushStep => Restarted
    case ResponseStep(call, outcome) => AnswerSignal(s.core, call, outcome)
    case _ => Quiet
  }

  function History(states: seq<Stats>, steps: seq<Step>, requested: Option<Session>, n: nat): seq<Signal>
    requires IsRun(states, steps, requested) && n < |states|
  {
    if n == 0 then [] else History(states, steps, requested, n - 1) + [SignalOf(states[n - 1], steps[n - 1])]
  }

  /** The session whose last success since the restart was marked as warming up. */
  function LastWarming(signals: seq<Signal>): Option<Session> {
    if signals == [] then None
    else match signals[|signals| - 1]
      case Restarted => None
      case Answered(f, Got(warming)) => if warming then Some(f.session) else None
      case _ => LastWarming(signals[..|signals| - 1])
  }

  predicate Ticks(s: Stats, timer: Timer) { exists t :: t in s.timers && s.timers[t] == timer }

  predicate HasWarmup(s: Stats) { exists t :: t in s.timers && s.timers[t].kind == WarmUp }

  /** With a requested session its poll timer runs; timers are for that session, and without one there are none. */
  ghost predicate PollsRequested(s: Stats) {
    s.core.flushed ==>
      && (forall t :: t in s.timers ==> s.core.requested == Some(s.timers[t].session))
      && (s.core.requested.Some? ==> s.poll.Some?)
  }

  ghost predicate Follows(s: Stats, signals: seq<Signal>) {
    && Invariant(s) && Tracks(s.core, signals) && Live(s.core) && PollsRequested(s)
    && s.retried == LastWarming(signals)
  }

  lemma EffectRunFollows(s: Stats, signals: seq<Signal>)
    requires Invariant(s)
    ensures Follows(EffectRun(s), signals + [Restarted])
  {
    EffectRunKeeps(s);
    FlushTracks(s.core, signals);
    FlushIsLive(s.core);
    StoppedHasNoTimers(s);
    OneMore(signals, Restarted);
  }

  lemma FetchFollows(s: Stats, session: Session, generation: nat, manual: bool, signals: seq<Signal>)
    requires Follows(s, signals)
    ensures Follows(FetchStats(s, session, generation, manual), signals + [Quiet])
  {
    StartFetchKeeps(s.core, session, generation, manual);
    StartFetchTracks(s.core, session, generation, manual, signals);
    StartFetchIsLive(s.core, session, generation, manual);
    OneMore(signals, Quiet);
  }

  lemma AnsweredPolls(s: Stats, call: nat, outcome: Outcome)
    requires Invariant(s) && PollsRequested(s) && call in s.core.calls
    ensures PollsRequested(Responded(s, call, outcome))
  {
    RespondFrame(s.core, call, outcome);
  }

  lemma RespondedFollows(s: Stats, call: nat, outcome: Outcome, signals: seq<Signal>)
    requires Follows(s, signals) && call in s.core.calls
    ensures Follows(Responded(s, call, outcome), signals + [AnswerSignal(s.core, call, outcome)])
  {
    RespondedKeeps(s, call, outcome);
    RespondTracks(s.core, call, outcome, signals);
    RespondIsLive(s.core, call, outcome);
    AnsweredPolls(s, call, outcome);
    OneMore(signals, AnswerSignal(s.core, call, outcome));
  }

  lemma WarmupFiredFollows(s: Stats, timer: nat, signals: seq<Signal>)
    requires Follows(s, signals) && timer in s.timers && s.timers[timer].kind == WarmUp
    ensures Follows(WarmupFired(s, timer), signals + [Quiet])
  {
    FetchFollows(s.(warmup := None, timers := s.timers - {timer}), s.timers[timer].session, s.timers[timer].generation, false, signals);
  }

  lemma RenderedFollows(s: Stats, session: Option<Session>, intervalChanged: bool, signals: seq<Signal>)
    requires Follows(s, signals) && s.core.flushed
    ensures Follows(s.(core := Render(s.core, session, intervalChanged)), signals + [Quiet])
  {
    RenderKeeps(s.core, session, intervalChanged);
    RenderTracks(s.core, session, intervalChanged, signals);
    RenderIsLive(s.core, session, intervalChanged);
    OneMore(signals, Quiet);
  }

  lemma StepFollows(s: Stats, step: Step, signals: seq<Signal>)
    requires Follows(s, signals) && Enabled(s, step)
    ensures Follows(Next(s, step), signals + [SignalOf(s, step)])
  {
    match step
    case RenderStep(session, intervalChanged) => RenderedFollows(s, session, intervalChanged, signals);
    case FlushStep => EffectRunFollows(s, signals);
    case Tick(timer) => FetchFollows(s, s.timers[timer].session, s.timers[timer].generation, false, signals);
    case WarmupTick(timer) => WarmupFiredFollows(s, timer, signals);
    case Refresh(session) => FetchFollows(s, session, s.core.generation, true, signals);
    case ResponseStep(call, outcome) => RespondedFollows(s, call, outcome, signals);
  }

  lemma {:induction false} RunFollows(states: seq<Stats>, steps: seq<Step>, requested: Option<Session>, n: nat)
    requires IsRun(states, steps, requested) && n < |states|
    ensures Follows(states[n], History(states, steps, requested, n))
  {
    if n > 0 {
      RunFollows(states, steps, requested, n - 1);
      assert Enabled(states[n - 1], steps[n - 1]);
      StepFollows(states[n - 1], steps[n - 1], History(states, steps, requested, n - 1));
    }
  }

  // ------------------------------------------------------------------ theorems

  /** The same guarantee as for the GPU hook: last success, last failure, and a truthful spinner. */
  lemma StatsAreLastGood(states: seq<Stats>, steps: seq<Step>, requested: Option<Session>, n: nat)
    requires IsRun(states, steps, requested) && n < |states|
    ensures var c, signals := states[n].core, History(states, steps, requested, n);
            && Visible(c) == Shown(signals, c.requested)
            && (VisibleError(c) <==> c.requested.Some? && LastFailed(signals) == c.requested)
            && (VisibleRefreshing(c) ==> ManualUnderWay(c)) && (c.flushed && ManualUnderWay(c) ==> VisibleRefreshing(c))
  {
    RunFollows(states, steps, requested, n);
    TrackedIsShown(states[n].core, History(states, steps, requested, n));
  }

  /** A success for the requested session under the current generation is shown at once. */
  lemma SuccessIsVisible(states: seq<Stats>, steps: seq<Step>, requested: Option<Session>, i: nat, call: nat, flag: bool)
    requires IsRun(states, steps, requested) && i < |steps| && steps[i] == ResponseStep(call, Got(flag))
    requires call in states[i].core.calls
    requires var c := states[i].core; c.requested == Some(c.calls[call].session) && c.generation == c.calls[call].generation
    ensures var f := states[i].core.calls[call];
            Visible(states[i + 1].core) == Some(Data(f.session, f.generation, flag)) && !VisibleError(states[i + 1].core)
  {
    StatsAreLastGood(states, steps, requested, i + 1);
    RespondFrame(states[i].core, call, Got(flag));
    SuccessIsShown(History(states, steps, requested, i), states[i].core.calls[call], flag);
    OneMore(History(states, steps, requested, i), Answered(states[i].core.calls[call], Got(flag)));
    assert states[i + 1] == Next(states[i], steps[i]);
  }

  /** A tick, a click, an answer that no longer counts, or a first or second failure in a row. */
  predicate Harmless(s: Stats, step: Step, failures: nat)
    requires Enabled(s, step)
  {
    match step
    case Tick(_) => true
    case WarmupTick(_) => true
    case Refresh(_) => true
    case ResponseStep(call, outcome) =>
      || !(s.core.requested == Some(s.core.calls[call].session) && s.core.generation == s.core.calls[call].generation)
      || (outcome == Broke && failures < 2)
    case _ => false
  }

  lemma HarmlessStepsKeepTheData(states: seq<Stats>, steps: seq<Step>, requested: Option<Session>, i: nat)
    requires IsRun(states, steps, requested) && i < |steps| && Enabled(states[i], steps[i])
    requires Harmless(states[i], steps[i], FailuresInARow(History(states, steps, requested, i)))
    ensures Visible(states[i + 1].core) == Visible(states[i].core)
  {
    StatsAreLastGood(states, steps, requested, i);
    StatsAreLastGood(states, steps, requested, i + 1);
    var signals, c := History(states, steps, requested, i), states[i].core;
    QuietKeepsShown(signals, c.requested);
    assert states[i + 1] == Next(states[i], steps[i]);
    if steps[i].ResponseStep? {
      RespondFrame(c, steps[i].call, steps[i].outcome);
      if SignalOf(states[i], steps[i]).Answered? { FewFailuresKeepShown(signals, c.calls[steps[i].call]); }
    }
  }

  /** After three failures in a row, counted in the history, nothing is shown. */
  lemma ThreeFailuresHide(states: seq<Stats>, steps: seq<Step>, requested: Option<Session>, n: nat)
    requires IsRun(states, steps, requested) && n < |states| && FailuresInARow(History(states, steps, requested, n)) >= 3
    ensures Visible(states[n].core) == None
  {
    StatsAreLastGood(states, steps, requested, n);
    ManyFailuresHide(History(states, steps, requested, n));
  }

  /** Once the effects have run, exactly the requested session is polled; running them fetches at once under a new generation. */
  lemma RequestedSessionIsPolled(states: seq<Stats>, steps: seq<Step>, requested: Option<Session>, n: nat)
    requires IsRun(states, steps, requested) && n < |states| && states[n].core.flushed
    ensures match states[n].core.requested
            case None => states[n].timers == map[]
            case Some(x) => Ticks(states[n], Timer(x, states[n].core.generation, Poll))
    ensures n > 0 && steps[n - 1] == FlushStep && states[n].core.requested.Some? ==>
              var c := states[n].core;
              UnderWay(c, Fetch(c.requested.value, c.generation, false)) && c.generation > states[n - 1].core.generation
  {
    RunFollows(states, steps, requested, n);
    var s := states[n];
    if s.core.requested.None? {
      assert forall t :: t !in s.timers;
    } else {
      assert s.timers[s.poll.value] == Timer(s.core.requested.value, s.core.generation, Poll);
    }
    if n > 0 && steps[n - 1] == FlushStep {
      RunFollows(states, steps, requested, n - 1);
      FlushIsLive(states[n - 1].core);
      FlushKeeps(states[n - 1].core);
      assert Enabled(states[n - 1], steps[n - 1]) && s == Next(states[n - 1], steps[n - 1]);
      assert s.core == Flush(states[n - 1].core);
    }
  }

  /**
   * A success marked as warming up schedules one retry, unless the last success before it was marked too; any other success leaves no
   * retry scheduled.
   */
  lemma WarmingUpRetriesOnce(states: seq<Stats>, steps: seq<Step>, requested: Option<Session>, i: nat, call: nat, warming: bool)
    requires IsRun(states, steps, requested) && i < |steps| && steps[i] == ResponseStep(call, Got(warming))
    requires call in states[i].core.calls
    requires var c := states[i].core; c.requested == Some(c.calls[call].session) && c.generation == c.calls[call].generation
    ensures var f, t := states[i].core.calls[call], states[i + 1];
            if warming && LastWarming(History(states, steps, requested, i)) != Some(f.session)
            then Ticks(t, Timer(f.session, f.generation, WarmUp)) else !HasWarmup(t)
  {
    RunFollows(states, steps, requested, i);
    var s := states[i];
    assert states[i + 1] == Next(s, steps[i]);
    RespondFrame(s.core, call, Got(warming));
    WarmupStoppedKeeps(s);
    var t := states[i + 1];
    if warming && s.retried != Some(s.core.calls[call].session) {
      assert t.timers[s.made] == Timer(s.core.calls[call].session, s.core.calls[call].generation, WarmUp);
    } else {
      assert t.timers == WarmupStopped(s).timers;
    }
  }

  /** A tick, the warm-up timer or a click makes its call exactly when it is due. */
  lemma TicksAndClicksFetch(states: seq<Stats>, steps: seq<Step>, requested: Option<Session>, i: nat)
    requires IsRun(states, steps, requested) && i < |steps| && (steps[i].Tick? || steps[i].WarmupTick? || steps[i].Refresh?)
    ensures steps[i].Refresh? || steps[i].timer in states[i].timers
    ensures var c, d := states[i].core, states[i + 1].core;
            var session := if steps[i].Refresh? then steps[i].session else states[i].timers[steps[i].timer].session;
            var f := Fetch(session, c.generation, steps[i].Refresh?);
            if c.requested == Some(session) && !Busy(c) then UnderWay(d, f) && d.issued == c.issued + [f]
            else d.calls == c.calls && d.issued == c.issued
  {
    RunFollows(states, steps, requested, i);
    var s := states[i];
    assert Enabled(s, steps[i]) && states[i + 1] == Next(s, steps[i]);
    if steps[i].Refresh? {
      StartFetchIssues(s.core, steps[i].session, s.core.generation, true);
    } else {
      var timer := s.timers[steps[i].timer];
      StartFetchIssues(s.core, timer.session, timer.generation, false);
    }
  }
}
