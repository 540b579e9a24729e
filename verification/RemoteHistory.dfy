/** What a polling hook shows as a function of what has happened: restarts and the answers that counted, in their order. */
module RemoteHistory {
  import opened Text
  import opened RemotePolling

  /** The effect ran anew; a call of the requested session and the current generation was answered; or something else happened. */
  datatype Signal = Restarted | Answered(fetch: Fetch, outcome: Outcome) | Quiet

  /** The answer of a call counts only for the session requested and the generation current at that time. */
  function AnswerSignal(c: Core, call: nat, outcome: Outcome): Signal
    requires call in c.calls
  {
    var f := c.calls[call];
    if c.requested == Some(f.session) && c.generation == f.generation then Answered(f, outcome) else Quiet
  }

  function FailuresInARow(signals: seq<Signal>): nat {
    if signals == [] then 0
    else
      var before := FailuresInARow(signals[..|signals| - 1]);
      match signals[|signals| - 1]
      case Restarted => 0
      case Answered(_, outcome) => if outcome == Broke then before + 1 else 0
      case Quiet => before
  }

  /** The data of the last success since the restart; three failures in a row, or a failure for another session, discard it. */
  function LastGood(signals: seq<Signal>): Option<Data> {
    if signals == [] then None
    else
      var before := LastGood(signals[..|signals| - 1]);
      match signals[|signals| - 1]
      case Restarted => None
      case Answered(f, Got(flag)) => Some(Data(f.session, f.generation, flag))
      case Answered(f, Broke) =>
        if FailuresInARow(signals) >= 3 || (before.Some? && before.value.session != f.session) then None else before
      case Quiet => before
  }

  /** The session whose last answer since the restart was a failure. */
  function LastFailed(signals: seq<Signal>): Option<Session> {
    if signals == [] then None
    else match signals[|signals| - 1]
      case Restarted => None
      case Answered(f, outcome) => if outcome == Broke then Some(f.session) else None
      case Quiet => LastFailed(signals[..|signals| - 1])
  }

  /** What the component gets to see of the data, given the session it asks for. */
  function Shown(signals: seq<Signal>, requested: Option<Session>): Option<Data> {
    var good := LastGood(signals);
    if good.Some? && requested == Some(good.value.session) then good else None
  }

  predicate VisibleError(c: Core) { c.view.Some? && Some(c.view.value.session) == c.requested && c.view.value.error }

  predicate VisibleRefreshing(c: Core) { c.view.Some? && Some(c.view.value.session) == c.requested && c.view.value.refreshing }

  // ------------------------------------------------------------------ the refs follow the history

  function StoredData(c: Core): Option<Data> { if c.view.Some? then c.view.value.data else None }

  function StoredError(c: Core): Option<Session> {
    if c.view.Some? && c.view.value.error then Some(c.view.value.session) else None
  }

  ghost predicate Tracks(c: Core, signals: seq<Signal>) {
    c.failCount == FailuresInARow(signals) && StoredData(c) == LastGood(signals) && StoredError(c) == LastFailed(signals)
  }

  lemma OneMore(signals: seq<Signal>, s: Signal)
    ensures (signals + [s])[..|signals + [s]| - 1] == signals && (signals + [s])[|signals|] == s
  {
  }

  lemma QuietTracks(c: Core, d: Core, signals: seq<Signal>)
    requires Tracks(c, signals) && d.failCount == c.failCount
    requires StoredData(d) == StoredData(c) && StoredError(d) == StoredError(c)
    ensures Tracks(d, signals + [Quiet])
  {
    OneMore(signals, Quiet);
  }

  lemma RenderTracks(c: Core, session: Option<Session>, intervalChanged: bool, signals: seq<Signal>)
    requires Tracks(c, signals)
    ensures Tracks(Render(c, session, intervalChanged), signals + [Quiet])
  {
    QuietTracks(c, Render(c, session, intervalChanged), signals);
  }

  lemma StartFetchTracks(c: Core, session: Session, generation: nat, manual: bool, signals: seq<Signal>)
    requires Tracks(c, signals)
    ensures Tracks(StartFetch(c, session, generation, manual), signals + [Quiet])
  {
    QuietTracks(c, StartFetch(c, session, generation, manual), signals);
  }

  lemma FlushTracks(c: Core, signals: seq<Signal>)
    ensures Tracks(Flush(c), signals + [Restarted])
  {
    OneMore(signals, Restarted);
  }

  lemma TakenTracks(c: Core, f: Fetch, outcome: Outcome, signals: seq<Signal>)
    requires ViewInvariant(c) && Tracks(c, signals) && IsCurrent(c, f.session, f.generation)
    ensures Tracks(TakeOutcome(c, f, outcome), signals + [Answered(f, outcome)])
  {
    OneMore(signals, Answered(f, outcome));
  }

  lemma RespondTracks(c: Core, call: nat, outcome: Outcome, signals: seq<Signal>)
    requires ViewInvariant(c) && Tracks(c, signals) && call in c.calls
    ensures Tracks(Respond(c, call, outcome), signals + [AnswerSignal(c, call, outcome)])
  {
    var f := c.calls[call];
    var c1 := c.(calls := c.calls - {call});
    if IsCurrent(c, f.session, f.generation) {
      TakenTracks(c1, f, outcome, signals);
    } else {
      QuietTracks(c, Respond(c, call, outcome), signals);
    }
  }

  lemma TrackedIsShown(c: Core, signals: seq<Signal>)
    requires ViewInvariant(c) && Tracks(c, signals)
    ensures Visible(c) == Shown(signals, c.requested)
    ensures VisibleError(c) <==> c.requested.Some? && LastFailed(signals) == c.requested
  {
  }

  // ------------------------------------------------------------------ consequences on the history alone

  /** A counted success is shown. */
  lemma SuccessIsShown(signals: seq<Signal>, f: Fetch, flag: bool)
    ensures Shown(signals + [Answered(f, Got(flag))], Some(f.session)) == Some(Data(f.session, f.generation, flag))
  {
    OneMore(signals, Answered(f, Got(flag)));
  }

  /** Up to two failures in a row change nothing about what is shown. */
  lemma FewFailuresKeepShown(signals: seq<Signal>, f: Fetch)
    requires FailuresInARow(signals) < 2
    ensures Shown(signals + [Answered(f, Broke)], Some(f.session)) == Shown(signals, Some(f.session))
  {
    OneMore(signals, Answered(f, Broke));
  }

  lemma QuietKeepsShown(signals: seq<Signal>, requested: Option<Session>)
    ensures Shown(signals + [Quiet], requested) == Shown(signals, requested)
  {
    OneMore(signals, Quiet);
  }

  /** Three failures in a row hide everything, until a success. */
  lemma {:induction false} ManyFailuresHide(signals: seq<Signal>)
    requires FailuresInARow(signals) >= 3
    ensures LastGood(signals) == None
  {
    if signals[|signals| - 1].Quiet? { ManyFailuresHide(signals[..|signals| - 1]); }
  }

  // ------------------------------------------------------------------ calls under way

  ghost predicate UnderWay(c: Core, f: Fetch) { exists k :: k in c.calls && c.calls[k] == f }

  predicate IsManual(c: Core, k: nat) {
    k in c.calls && c.calls[k].manual && Some(c.calls[k].session) == c.requested && c.calls[k].generation == c.generation
  }

  /** A manual refresh for the requested session is under way. */
  ghost predicate ManualUnderWay(c: Core) { exists k :: IsManual(c, k) }

  ghost predicate Busy(c: Core) { exists k :: OfCurrentGeneration(c, k) }

  /** The marker stands for a call; the spinner turns only for a manual call, and after the effects have run for every one. */
  ghost predicate Live(c: Core) {
    && (c.fetching.Some? ==> Busy(c))
    && (VisibleRefreshing(c) ==> ManualUnderWay(c))
    && (c.flushed && ManualUnderWay(c) ==> VisibleRefreshing(c))
    && (c.flushed ==> if c.requested.Some? then c.view.Some? && c.view.value.session == c.requested.value else c.view.None?)
  }

  lemma RenderIsLive(c: Core, session: Option<Session>, intervalChanged: bool)
    requires CoreInvariant(c) && Live(c) && c.flushed
    ensures Live(Render(c, session, intervalChanged))
  {
    var d := Render(c, session, intervalChanged);
    if Busy(c) {
      var k :| OfCurrentGeneration(c, k);
      assert OfCurrentGeneration(d, k);
    }
    if session == c.requested && ManualUnderWay(c) {
      var k :| IsManual(c, k);
      assert IsManual(d, k);
    }
  }

  /** When the fetch function makes its call: current session and generation, and none of the current generation under way. */
  lemma StartFetchIssues(c: Core, session: Session, generation: nat, manual: bool)
    requires CoreInvariant(c) && Live(c)
    ensures var d := StartFetch(c, session, generation, manual);
            if c.requested == Some(session) && generation == c.generation && !Busy(c)
            then UnderWay(d, Fetch(session, generation, manual)) && d.issued == c.issued + [Fetch(session, generation, manual)]
            else d.calls == c.calls && d.issued == c.issued
  {
    var d := StartFetch(c, session, generation, manual);
    if Busy(c) {
      var k :| OfCurrentGeneration(c, k);
    }
    if d != c {
      assert d.calls[|c.issued|] == Fetch(session, generation, manual);
    }
  }

  lemma StartFetchIsLive(c: Core, session: Session, generation: nat, manual: bool)
    requires CoreInvariant(c) && Live(c)
    ensures Live(StartFetch(c, session, generation, manual))
  {
    var d := StartFetch(c, session, generation, manual);
    if d != c {
      var n: nat := |c.issued|;
      assert d.calls[n] == Fetch(session, generation, manual) && OfCurrentGeneration(d, n);
      assert forall k :: IsManual(c, k) ==> IsManual(d, k);
      assert IsManual(d, n) <==> manual;
    }
  }

  lemma RenewedIsLive(c: Core)
    requires CoreInvariant(c)
    ensures CoreInvariant(Renewed(c)) && Live(Renewed(c)) && !Busy(Renewed(c)) && Renewed(c).requested == c.requested
  {
    assert forall k :: k in c.calls ==> c.calls[k].generation <= c.generation;
  }

  /** Running the effect makes one automatic call for the requested session under the new generation. */
  lemma FlushIsLive(c: Core)
    requires CoreInvariant(c)
    ensures Live(Flush(c)) && Flush(c).flushed && Flush(c).requested == c.requested
    ensures c.requested.Some? ==> UnderWay(Flush(c), Fetch(c.requested.value, Flush(c).generation, false))
  {
    RenewedIsLive(c);
    if c.requested.Some? {
      var c1 := Renewed(c);
      StartFetchIssues(c1, c1.requested.value, c1.generation, false);
      StartFetchIsLive(c1, c1.requested.value, c1.generation, false);
    }
  }

  lemma OthersStayUnderWay(c: Core, d: Core, call: nat)
    requires CallInvariant(c) && call in c.calls && d.calls == c.calls - {call} && d.generation == c.generation
    ensures c.calls[call].generation != c.generation ==> (Busy(c) <==> Busy(d))
    ensures c.calls[call].generation == c.generation ==> !Busy(d)
  {
    if Busy(c) && c.calls[call].generation != c.generation {
      var k :| OfCurrentGeneration(c, k);
      assert OfCurrentGeneration(d, k);
    }
    if Busy(d) {
      var k :| OfCurrentGeneration(d, k);
      assert OfCurrentGeneration(c, k) && k != call;
    }
  }

  lemma LateAnswerIsLive(c: Core, call: nat, outcome: Outcome)
    requires CoreInvariant(c) && Live(c) && call in c.calls && !IsCurrent(c, c.calls[call].session, c.calls[call].generation)
    ensures Live(Respond(c, call, outcome))
  {
    var d := Respond(c, call, outcome);
    OthersStayUnderWay(c, d, call);
    if ManualUnderWay(c) {
      var k :| IsManual(c, k);
      assert IsManual(d, k);
    }
    if ManualUnderWay(d) {
      var k :| IsManual(d, k);
      assert IsManual(c, k);
    }
  }

  lemma CurrentAnswerIsLive(c: Core, call: nat, outcome: Outcome)
    requires CoreInvariant(c) && Live(c) && call in c.calls && IsCurrent(c, c.calls[call].session, c.calls[call].generation)
    ensures Live(Respond(c, call, outcome))
  {
    var f, d := c.calls[call], Respond(c, call, outcome);
    OthersStayUnderWay(c, d, call);
    assert !ManualUnderWay(d) by {
      if k :| IsManual(d, k) {
        assert OfCurrentGeneration(d, k);
      }
    }
  }

  lemma RespondIsLive(c: Core, call: nat, outcome: Outcome)
    requires CoreInvariant(c) && Live(c) && call in c.calls
    ensures Live(Respond(c, call, outcome))
  {
    if IsCurrent(c, c.calls[call].session, c.calls[call].generation) {
      CurrentAnswerIsLive(c, call, outcome);
    } else {
      LateAnswerIsLive(c, call, outcome);
    }
  }
}
