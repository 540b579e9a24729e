/**
 * Generation-guarded polling: the part that src/hooks/useRemoteGpuOverview.ts and src/hooks/useRemoteStats.ts share. A render
 * makes the new session visible at once; cleanup and effect of that commit follow in a later step, and React runs
 * them before it renders again. Responses, timers and clicks may fall anywhere, in between included.
 */
module RemotePolling {
  import opened Text

  /** Session ids are only ever compared. */
  type Session(==, !new)

  const MAX_CONSECUTIVE_FAILURES: nat := 3

  /** A payload, tagged with the session and generation it was fetched for; `flag` is all the hooks look at. */
  datatype Data = Data(session: Session, generation: nat, flag: bool)

  datatype Owned = Owned(session: Session, data: Option<Data>, error: bool, refreshing: bool)

  datatype Fetch = Fetch(session: Session, generation: nat, manual: bool)

  datatype Outcome = Got(flag: bool) | Broke

  /**
   * Shared refs and state. `effect` is the generation of the mounted effect, `flushed` says whether the effects of the
   * last render have run, `calls` are the backend calls in flight, `issued` logs every call ever made and `outcomes` the
   * results taken into account since the effect last ran.
   */
  datatype Core = Core(
    requested: Option<Session>, generation: nat, fetching: Option<nat>, failCount: nat, view: Option<Owned>,
    effect: Option<nat>, flushed: bool, calls: map<nat, Fetch>, issued: seq<Fetch>, outcomes: seq<bool>)

  function InitialCore(requested: Option<Session>): Core {
    Core(requested, 0, None, 0, None, None, false, map[], [], [])
  }

  predicate IsCurrent(c: Core, session: Session, generation: nat) {
    c.requested == Some(session) && c.generation == generation
  }

  function Refreshing(c: Core, session: Session, on: bool): Core {
    if c.view.Some? && c.view.value.session == session then c.(view := Some(c.view.value.(refreshing := on))) else c
  }

  /** The fetch function up to its `await`. */
  function StartFetch(c: Core, session: Session, generation: nat, manual: bool): Core {
    if !IsCurrent(c, session, generation) || c.fetching == Some(generation) then c
    else
      var f := Fetch(session, generation, manual);
      var c1 := c.(fetching := Some(generation), calls := c.calls[|c.issued| := f], issued := c.issued + [f]);
      if manual then Refreshing(c1, session, true) else c1
  }

  function StillRefreshing(c: Core, session: Session): bool {
    c.view.Some? && c.view.value.session == session && c.view.value.refreshing
  }

  /** What a call that is still current does to the state when it resolves or rejects. */
  function TakeOutcome(c: Core, f: Fetch, outcome: Outcome): Core {
    if !IsCurrent(c, f.session, f.generation) then c
    else match outcome
      case Got(flag) =>
        c.(view := Some(Owned(f.session, Some(Data(f.session, f.generation, flag)), false, StillRefreshing(c, f.session))),
           failCount := 0, outcomes := c.outcomes + [true])
      case Broke =>
        var clear := c.failCount + 1 >= MAX_CONSECUTIVE_FAILURES;
        var kept := if clear || c.view.None? || c.view.value.session != f.session then None else c.view.value.data;
        c.(view := Some(Owned(f.session, kept, true, StillRefreshing(c, f.session))),
           failCount := c.failCount + 1, outcomes := c.outcomes + [false])
  }

  /** The `finally` block. */
  function Settle(c: Core, f: Fetch): Core {
    var c1 := if c.fetching == Some(f.generation) then c.(fetching := None) else c;
    if f.manual && IsCurrent(c1, f.session, f.generation) then Refreshing(c1, f.session, false) else c1
  }

  function Respond(c: Core, call: nat, outcome: Outcome): Core
    requires call in c.calls
  {
    var f := c.calls[call];
    Settle(TakeOutcome(c.(calls := c.calls - {call}), f, outcome), f)
  }

  /** A render; only a new session or interval makes the effect run again. */
  function Render(c: Core, session: Option<Session>, intervalChanged: bool): Core {
    if session == c.requested && !intervalChanged then c else c.(requested := session, flushed := false)
  }

  /** Cleanup of the previous effect, then the new effect with its first fetch. */
  function Flush(c: Core): Core {
    var c1 := Renewed(c);
    if c1.requested.Some? then StartFetch(c1, c1.requested.value, c1.generation, false) else c1
  }

  /** A new generation with nothing in it. */
  function Renewed(c: Core): Core {
    var cleaned := if c.effect == Some(c.generation) then c.generation + 1 else c.generation;
    var generation := cleaned + 1;
    c.(generation := generation, fetching := None, failCount := 0, effect := Some(generation), flushed := true, outcomes := [],
       view := if c.requested.None? then None else Some(Owned(c.requested.value, None, false, false)))
  }

  /** What the component gets to see. */
  function Visible(c: Core): Option<Data> {
    if c.view.Some? && Some(c.view.value.session) == c.requested then c.view.value.data else None
  }

  // ------------------------------------------------------------------ invariant

  function TrailingFailures(outcomes: seq<bool>): nat {
    if outcomes == [] || outcomes[|outcomes| - 1] then 0 else 1 + TrailingFailures(outcomes[..|outcomes| - 1])
  }

  predicate OfCurrentGeneration(c: Core, call: nat) {
    call in c.calls && c.calls[call].generation == c.generation
  }

  /** Stored data was fetched for its session under the current generation; the counter counts, and three failures hide everything. */
  ghost predicate ViewInvariant(c: Core) {
    && (c.view.Some? && c.view.value.data.Some? ==>
          && c.view.value.data.value.session == c.view.value.session
          && c.view.value.data.value.generation == c.generation)
    && c.failCount == TrailingFailures(c.outcomes)
    && (c.failCount >= MAX_CONSECUTIVE_FAILURES && c.view.Some? ==> c.view.value.data.None?)
  }

  /** At most one call of the current generation, and the marker tells whether there is one. */
  ghost predicate CallInvariant(c: Core) {
    && (c.fetching == None || c.fetching == Some(c.generation))
    && (forall k :: k in c.calls ==> k < |c.issued| && c.calls[k].generation <= c.generation)
    && (forall k :: k in c.calls ==> c.calls[k].generation == c.generation ==> c.fetching.Some?)
    && (forall j, k :: j in c.calls && k in c.calls ==> c.calls[j].generation == c.generation == c.calls[k].generation ==> j == k)
  }

  ghost predicate CoreInvariant(c: Core) { ViewInvariant(c) && CallInvariant(c) }

  lemma StartFetchKeeps(c: Core, session: Session, generation: nat, manual: bool)
    requires CoreInvariant(c)
    ensures CoreInvariant(StartFetch(c, session, generation, manual))
  {
  }

  lemma TrailingAppend(outcomes: seq<bool>, taken: bool)
    ensures TrailingFailures(outcomes + [taken]) == if taken then 0 else 1 + TrailingFailures(outcomes)
  {
    assert (outcomes + [taken])[..|outcomes|] == outcomes;
  }

  lemma GotKeepsView(c: Core, f: Fetch, flag: bool)
    requires ViewInvariant(c) && IsCurrent(c, f.session, f.generation)
    ensures ViewInvariant(TakeOutcome(c, f, Got(flag)))
  {
    TrailingAppend(c.outcomes, true);
  }

  lemma BrokeKeepsView(c: Core, f: Fetch)
    requires ViewInvariant(c) && IsCurrent(c, f.session, f.generation)
    ensures ViewInvariant(TakeOutcome(c, f, Broke))
  {
    TrailingAppend(c.outcomes, false);
  }

  lemma TakeOutcomeFrame(c: Core, f: Fetch, outcome: Outcome)
    ensures var c1 := TakeOutcome(c, f, outcome);
            c1.generation == c.generation && c1.calls == c.calls && c1.fetching == c.fetching && c1.issued == c.issued
  {
  }

  lemma TakeOutcomeKeepsView(c: Core, f: Fetch, outcome: Outcome)
    requires ViewInvariant(c)
    ensures ViewInvariant(TakeOutcome(c, f, outcome))
  {
    if IsCurrent(c, f.session, f.generation) {
      match outcome
      case Got(flag) => GotKeepsView(c, f, flag);
      case Broke => BrokeKeepsView(c, f);
    }
  }

  lemma SettleKeepsView(c: Core, f: Fetch)
    requires ViewInvariant(c)
    ensures ViewInvariant(Settle(c, f))
    ensures var c1 := Settle(c, f);
            && c1.generation == c.generation && c1.calls == c.calls && c1.issued == c.issued
            && c1.fetching == if c.fetching == Some(f.generation) then None else c.fetching
  {
  }

  lemma SettledCallIsGone(c: Core, c1: Core, call: nat)
    requires CallInvariant(c) && call in c.calls
    requires c1.generation == c.generation && c1.issued == c.issued && c1.calls == c.calls - {call}
    requires c1.fetching == if c.fetching == Some(c.calls[call].generation) then None else c.fetching
    ensures CallInvariant(c1)
  {
  }

  lemma RespondKeeps(c: Core, call: nat, outcome: Outcome)
    requires CoreInvariant(c) && call in c.calls
    ensures CoreInvariant(Respond(c, call, outcome))
  {
    var f := c.calls[call];
    var c1 := c.(calls := c.calls - {call});
    TakeOutcomeKeepsView(c1, f, outcome);
    TakeOutcomeFrame(c1, f, outcome);
    SettleKeepsView(TakeOutcome(c1, f, outcome), f);
    SettledCallIsGone(c, Respond(c, call, outcome), call);
  }

  /** A response touches neither the requested session nor the generation nor any other call. */
  lemma RespondFrame(c: Core, call: nat, outcome: Outcome)
    requires call in c.calls
    ensures Respond(c, call, outcome).calls == c.calls - {call}
    ensures Respond(c, call, outcome).generation == c.generation && Respond(c, call, outcome).requested == c.requested
    ensures Respond(c, call, outcome).issued == c.issued && Respond(c, call, outcome).flushed == c.flushed
  {
  }

  lemma FlushKeeps(c: Core)
    requires CoreInvariant(c)
    ensures CoreInvariant(Flush(c)) && Flush(c).generation > c.generation
  {
  }

  lemma RenderKeeps(c: Core, session: Option<Session>, intervalChanged: bool)
    requires CoreInvariant(c)
    ensures CoreInvariant(Render(c, session, intervalChanged))
  {
  }

  /** What is visible belongs to the requested session and to the current generation. */
  lemma VisibleIsCurrent(c: Core)
    requires CoreInvariant(c) && Visible(c).Some?
    ensures c.requested == Some(Visible(c).value.session) && Visible(c).value.generation == c.generation
  {
  }

  /** Three failures in a row leave nothing visible. */
  lemma ThreeFailuresHideEverything(c: Core)
    requires CoreInvariant(c) && |c.outcomes| >= 3
    requires forall i :: |c.outcomes| - 3 <= i < |c.outcomes| ==> !c.outcomes[i]
    ensures Visible(c).None?
  {
    var o := c.outcomes;
    var n := |o|;
    assert !o[n - 1] && !o[..n - 1][n - 2] && !o[..n - 2][n - 3];
    assert o[..n - 1][..n - 2] == o[..n - 2];
    assert TrailingFailures(o) == 1 + TrailingFailures(o[..n - 1]);
    assert TrailingFailures(o[..n - 1]) == 1 + TrailingFailures(o[..n - 2]);
  }

  // ------------------------------------------------------------------ the shared refs as the source writes them

  /** The refs both hooks keep; ghost fields are the runtime around them. */
  class PollingRefs {
    var requested: Option<Session>
    var generation: nat
    var fetching: Option<nat>
    var failCount: nat
    var view: Option<Owned>
    var effect: Option<nat>
    ghost var flushed: bool
    ghost var calls: map<nat, Fetch>
    ghost var issued: seq<Fetch>
    ghost var outcomes: seq<bool>

    ghost function Shared(): Core
      reads this
    {
      Core(requested, generation, fetching, failCount, view, effect, flushed, calls, issued, outcomes)
    }

    constructor (requested: Option<Session>)
      ensures Shared() == InitialCore(requested)
    {
      this.requested, generation, fetching, failCount, view, effect := requested, 0, None, 0, None, None;
      flushed, calls, issued, outcomes := false, map[], [], [];
    }

    method SetRefreshing(session: Session, on: bool)
      modifies this`view
      ensures Shared() == Refreshing(old(Shared()), session, on)
    {
      if view.Some? && view.value.session == session {
        view := Some(view.value.(refreshing := on));
      }
    }

    /** The guards and the call itself. */
    method Begin(session: Session, gen: nat, manual: bool)
      modifies this
      ensures Shared() == StartFetch(old(Shared()), session, gen, manual)
    {
      if !(requested == Some(session) && generation == gen) { return; }
      if fetching == Some(gen) { return; }
      fetching := Some(gen);
      calls, issued := calls[|issued| := Fetch(session, gen, manual)], issued + [Fetch(session, gen, manual)];
      if manual {
        SetRefreshing(session, true);
      }
    }

    /** The `try`/`catch` part; answers whether the call was still current. */
    method Take(f: Fetch, outcome: Outcome) returns (current: bool)
      modifies this
      ensures current <==> IsCurrent(old(Shared()), f.session, f.generation)
      ensures Shared() == TakeOutcome(old(Shared()), f, outcome)
    {
      current := requested == Some(f.session) && generation == f.generation;
      if !current { return; }
      var refreshing := view.Some? && view.value.session == f.session && view.value.refreshing;
      match outcome
      case Got(flag) =>
        view := Some(Owned(f.session, Some(Data(f.session, f.generation, flag)), false, refreshing));
        failCount := 0;
        outcomes := outcomes + [true];
      case Broke =>
        failCount := failCount + 1;
        var clear := failCount >= MAX_CONSECUTIVE_FAILURES;
        var kept := if clear || view.None? || view.value.session != f.session then None else view.value.data;
        view := Some(Owned(f.session, kept, true, refreshing));
        outcomes := outcomes + [false];
    }

    /** The `finally` part. */
    method Finish(f: Fetch)
      modifies this
      ensures Shared() == Settle(old(Shared()), f)
    {
      if fetching == Some(f.generation) {
        fetching := None;
      }
      if f.manual && requested == Some(f.session) && generation == f.generation {
        SetRefreshing(f.session, false);
      }
    }

    method OnResponse(f: Fetch, outcome: Outcome, ghost call: nat) returns (current: bool)
      requires call in calls && calls[call] == f
      modifies this
      ensures current <==> IsCurrent(old(Shared()), f.session, f.generation)
      ensures Shared() == Respond(old(Shared()), call, outcome)
    {
      calls := calls - {call};
      current := Take(f, outcome);
      Finish(f);
    }

    /** Cleanup of the previous effect, then the new effect with its first fetch. */
    method Restart()
      modifies this
      ensures Shared() == Flush(old(Shared()))
    {
      Renew();
      if requested.Some? {
        Begin(requested.value, generation, false);
      }
    }

    method Renew()
      modifies this
      ensures Shared() == Renewed(old(Shared()))
    {
      if effect == Some(generation) {
        generation := generation + 1;
      }
      generation := generation + 1;
      effect := Some(generation);
      fetching, failCount := None, 0;
      flushed, outcomes := true, [];
      view := if requested.None? then None else Some(Owned(requested.value, None, false, false));
    }
  }
}
