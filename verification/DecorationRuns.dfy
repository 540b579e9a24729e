/** When the decoration index is right: an exact condition on how rows moved, for every run of events. */
module DecorationRuns {
  import opened Text
  import opened DecorationIndex

  // ------------------------------------------------------------------ the index as a function of the memory

  function DrawnOf(m: Memory): map<Key, int> {
    map k | k in WantedKeys(m.at) && m.moved(k.line).Some? :: m.moved(k.line).value
  }

  function MemoOf(m: Memory): map<int, set<Key>> { map y | y in m.rows && StillMemoised(m, y) :: RowKeys(m.at, y) }

  function SentinelOf(m: Memory): Option<int> { if m.sentinel.Some? then m.moved(m.sentinel.value) else None }

  /** What the index holds as long as every refresh so far was right. */
  function IndexOf(m: Memory, suspended: bool, matchers: nat): Index {
    Index(DrawnOf(m), MemoOf(m), SentinelOf(m), TrimSeen(m), suspended, matchers)
  }

  /** Memoised rows are rows of the window, settled if they have decorations; settled rows have moved unchanged. */
  ghost predicate Sound(m: Memory, b: Buffer) {
    && (forall y :: y in m.rows ==> InWindow(m.at, y) && (RowKeys(m.at, y) != {} ==> Settled(m.at, y)))
    && Evolves(m.at, b, m.moved)
  }

  ghost predicate Holds(t: Moment) {
    && t.index == IndexOf(t.memory, t.index.suspended, t.index.matchers)
    && Sound(t.memory, t.buffer)
    && (Off(t.index) ==> t.memory.at == BLANK && t.memory.rows == {} && t.memory.sentinel == None)
  }

  lemma BlankHasNothing()
    ensures (forall y :: !InWindow(BLANK, y)) && WantedKeys(BLANK) == {}
  {
    forall y ensures !InWindow(BLANK, y) {
      assert ScanEnd(BLANK) <= -1;
    }
    forall k ensures k !in WantedKeys(BLANK) {
      assert !Wanted(BLANK, k);
    }
  }

  lemma BlankIsEmpty(m: Memory)
    requires m.at == BLANK && m.rows == {} && m.sentinel == None
    ensures DrawnOf(m) == map[] && MemoOf(m) == map[] && SentinelOf(m) == None && !TrimSeen(m)
  {
    BlankHasNothing();
  }

  lemma NothingIsSound(b: Buffer)
    ensures Sound(Nothing(), b)
  {
  }

  // ------------------------------------------------------------------ rows move

  lemma MovedDrawn(m: Memory, f: Shift)
    ensures var v := DrawnOf(m);
            DrawnOf(m.(moved := Then(m.moved, f))) == map k | k in v && f(v[k]).Some? :: f(v[k]).value
  {
  }

  /** All decorations of a memoised row stand on one row, so they are lost together. */
  lemma MemoLostTogether(m: Memory, v: Index, f: Shift, y: int)
    requires v.drawn == DrawnOf(m) && y in m.rows && InWindow(m.at, y) && StillMemoised(m, y)
    ensures var keys := RowKeys(m.at, y);
            keys - Lost(v, f) == if keys != {} && f(m.moved(y).value).None? then {} else keys
  {
    var keys := RowKeys(m.at, y);
    forall k | k in keys
      ensures k in v.drawn && v.drawn[k] == m.moved(y).value
    {
      assert Wanted(m.at, k);
    }
  }

  lemma MovedMemo(m: Memory, v: Index, f: Shift)
    requires v.drawn == DrawnOf(m) && v.memo == MemoOf(m) && forall y :: y in m.rows ==> InWindow(m.at, y)
    ensures MemoOf(m.(moved := Then(m.moved, f))) == Disposed(v, Lost(v, f)).memo
  {
    var m' := m.(moved := Then(m.moved, f));
    forall y
      ensures y in MemoOf(m') <==> y in Disposed(v, Lost(v, f)).memo
      ensures y in MemoOf(m') ==> MemoOf(m')[y] == Disposed(v, Lost(v, f)).memo[y]
    {
      if y in m.rows && StillMemoised(m, y) {
        MemoLostTogether(m, v, f, y);
      }
    }
  }

  lemma ShiftKeeps(m: Memory, f: Shift, suspended: bool, matchers: nat)
    requires forall y :: y in m.rows ==> InWindow(m.at, y)
    ensures Shifted(IndexOf(m, suspended, matchers), f) == IndexOf(m.(moved := Then(m.moved, f)), suspended, matchers)
  {
    MovedDrawn(m, f);
    MovedMemo(m, IndexOf(m, suspended, matchers), f);
  }

  // ------------------------------------------------------------------ a refresh

  lemma RequiredIff(m: Memory, v: Index, b: Buffer, k: Key)
    requires v.memo == MemoOf(m)
    ensures k in Required(v, b) <==> InWindow(b, k.line) && k in Needs(v, b, k.line)
  {
  }

  /** With nothing disturbed, every row of the window needs what a scan of it gives. */
  lemma UndisturbedRow(m: Memory, v: Index, b: Buffer, y: int)
    requires Sound(m, b) && Undisturbed(m, b) && v.memo == MemoOf(m) && InWindow(b, y)
    ensures Needs(v, b, y) == RowKeys(b, y)
  {
    if y in v.memo && RowKeys(m.at, y) != {} {
      var k :| k in RowKeys(m.at, y);
      assert Wanted(m.at, k) && m.moved(y) == Some(y);
      assert SameLine(m.at.lines[y], b.lines[y]);
    }
  }

  lemma UndisturbedKey(m: Memory, v: Index, b: Buffer, k: Key)
    requires Undisturbed(m, b) && v.drawn == DrawnOf(m) && Wanted(b, k) && k in v.drawn
    ensures v.drawn[k] == k.line
  {
    assert Wanted(m.at, k);
  }

  lemma UndisturbedIsRight(m: Memory, v: Index, b: Buffer)
    requires Sound(m, b) && Undisturbed(m, b) && v.memo == MemoOf(m) && v.drawn == DrawnOf(m)
    ensures WindowRefreshed(v, b).drawn == map k | k in WantedKeys(b) :: k.line
    ensures forall y :: y in MemoRows(v, b) ==> Needs(v, b, y) == RowKeys(b, y)
  {
    forall y | InWindow(b, y) ensures Needs(v, b, y) == RowKeys(b, y) {
      UndisturbedRow(m, v, b, y);
    }
    forall k
      ensures k in Required(v, b) <==> k in WantedKeys(b)
      ensures k in WantedKeys(b) && k in v.drawn ==> v.drawn[k] == k.line
    {
      RequiredIff(m, v, b, k);
      if Wanted(b, k) && k in v.drawn { UndisturbedKey(m, v, b, k); }
    }
    InPlace(v, b);
  }

  lemma InPlace(v: Index, b: Buffer)
    requires forall k :: k in Required(v, b) <==> k in WantedKeys(b)
    requires forall k :: k in WantedKeys(b) && k in v.drawn ==> v.drawn[k] == k.line
    ensures WindowRefreshed(v, b).drawn == map k | k in WantedKeys(b) :: k.line
  {
    assert Required(v, b) == WantedKeys(b);
  }

  /** A kept decoration on another row, or a row wrongly remembered as bare, shows. */
  lemma RightIsUndisturbed(m: Memory, v: Index, b: Buffer)
    requires Sound(m, b) && v.memo == MemoOf(m) && v.drawn == DrawnOf(m)
    requires WindowRefreshed(v, b).drawn == map k | k in WantedKeys(b) :: k.line
    ensures Undisturbed(m, b)
  {
    var drawn := WindowRefreshed(v, b).drawn;
    forall k | Wanted(m.at, k) && m.moved(k.line).Some? && (Wanted(b, k) || (k.line in m.rows && InWindow(b, k.line)))
      ensures m.moved(k.line) == Some(k.line)
    {
      RequiredIff(m, v, b, k);
      assert k in v.drawn && v.drawn[k] == m.moved(k.line).value;
      assert k in drawn;
    }
    forall y | y in m.rows && InWindow(b, y) && RowKeys(m.at, y) == {}
      ensures RowKeys(b, y) == {}
    {
      assert y in v.memo && v.memo[y] == {};
      forall k: Key | k.line == y ensures k !in RowKeys(b, y) {
        RequiredIff(m, v, b, k);
        assert k !in drawn;
        assert !Wanted(b, k);
      }
    }
  }

  /** A refresh that does not start from scratch is right exactly when nothing was disturbed, and then the memory describes it. */
  lemma RefreshFrom(m: Memory, v: Index, b: Buffer)
    requires Sound(m, b) && !TrimSeen(m) && v.drawn == DrawnOf(m) && v.memo == MemoOf(m)
    ensures WindowRefreshed(v, b).drawn == (map k | k in WantedKeys(b) :: k.line) <==> Undisturbed(m, b)
    ensures Undisturbed(m, b) ==> WindowRefreshed(v, b).drawn == DrawnOf(AfterRefresh(m, b))
    ensures Undisturbed(m, b) ==> WindowRefreshed(v, b).memo == MemoOf(AfterRefresh(m, b))
  {
    if WindowRefreshed(v, b).drawn == map k | k in WantedKeys(b) :: k.line {
      RightIsUndisturbed(m, v, b);
    }
    if Undisturbed(m, b) {
      UndisturbedIsRight(m, v, b);
      RefreshedMemo(m, v, b);
    }
  }

  lemma RefreshedMemo(m: Memory, v: Index, b: Buffer)
    requires !TrimSeen(m) && v.memo == MemoOf(m)
    requires forall y :: y in MemoRows(v, b) ==> Needs(v, b, y) == RowKeys(b, y)
    ensures WindowRefreshed(v, b).memo == MemoOf(AfterRefresh(m, b))
  {
    assert MemoRows(v, b) == AfterRefresh(m, b).rows;
  }

  lemma AfterRefreshIsSound(m: Memory, v: Index, b: Buffer)
    requires Sound(m, b) && !TrimSeen(m) && Undisturbed(m, b)
    ensures Sound(AfterRefresh(m, b), b)
  {
    forall y | y in AfterRefresh(m, b).rows && RowKeys(b, y) != {} ensures Settled(b, y) {
      if StillMemoised(m, y) && RowKeys(m.at, y) != {} {
        var k :| k in RowKeys(m.at, y);
        assert Wanted(m.at, k);
      }
    }
  }

  // ------------------------------------------------------------------ every step

  lemma RefreshKeeps(t: Moment)
    requires Holds(t)
    ensures Right(Next(t, Refresh).index, t.buffer) <==> Condition(t)
    ensures Condition(t) ==> Holds(Next(t, Refresh))
  {
    var v, b, m := t.index, t.buffer, t.memory;
    if Off(v) {
      BlankIsEmpty(m);
    } else if b.alternate {
      BlankIsEmpty(Nothing());
      NothingIsSound(b);
    } else if TrimSeen(m) {
      FreshRefresh(t);
    } else {
      RefreshFrom(m, Prepared(v, b), b);
      if Undisturbed(m, b) { AfterRefreshIsSound(m, v, b); }
    }
  }

  lemma FreshRefresh(t: Moment)
    requires Holds(t) && !Off(t.index) && !t.buffer.alternate && TrimSeen(t.memory)
    ensures Right(Next(t, Refresh).index, t.buffer) && Holds(Next(t, Refresh))
  {
    var b, m := t.buffer, Nothing();
    BlankHasNothing();
    BlankIsEmpty(m);
    NothingIsSound(b);
    assert Undisturbed(m, b);
    RefreshFrom(m, Prepared(t.index, b), b);
    AfterRefreshIsSound(m, t.index, b);
  }

  lemma OtherStepsKeep(t: Moment, e: Event)
    requires Holds(t) && !e.Refresh? && (e.Change? ==> Evolves(t.buffer, e.after, e.shift))
    ensures Holds(Next(t, e))
  {
    BlankIsEmpty(Nothing());
    NothingIsSound(BufferAfter(t.buffer, e));
    if e.Change? {
      ShiftKeeps(t.memory, e.shift, t.index.suspended, t.index.matchers);
      EvolvesThen(t.memory.at, t.buffer, e.after, t.memory.moved, e.shift);
    } else if e.Suspend? && Off(t.index) {
      BlankIsEmpty(t.memory);
    }
  }

  // ------------------------------------------------------------------ every run

  /** The refreshes among the first `n` events all satisfy the condition. */
  ghost predicate ConditionUpTo(moments: seq<Moment>, events: seq<Event>, n: nat)
    requires n <= |events| < |moments|
  {
    forall i :: 0 <= i < n && events[i].Refresh? ==> Condition(moments[i])
  }

  ghost predicate RightUpTo(moments: seq<Moment>, events: seq<Event>, n: nat)
    requires n <= |events| < |moments|
  {
    forall i :: 0 <= i < n && events[i].Refresh? ==> Right(moments[i + 1].index, moments[i].buffer)
  }

  lemma {:induction false} RunHolds(moments: seq<Moment>, events: seq<Event>, matchers: nat, b: Buffer, n: nat)
    requires IsRun(moments, events, matchers, b) && n <= |events| && ConditionUpTo(moments, events, n)
    ensures Holds(moments[n]) && RightUpTo(moments, events, n)
  {
    if n == 0 {
      BlankIsEmpty(Nothing());
      NothingIsSound(b);
    } else {
      RunHolds(moments, events, matchers, b, n - 1);
      StepHolds(moments[n - 1], events[n - 1], moments[n]);
    }
  }

  lemma StepHolds(t: Moment, e: Event, u: Moment)
    requires Holds(t) && u == Next(t, e) && (e.Change? ==> Evolves(t.buffer, e.after, e.shift))
    requires e.Refresh? ==> Condition(t)
    ensures Holds(u) && (e.Refresh? ==> Right(u.index, t.buffer))
  {
    if e.Refresh? {
      RefreshKeeps(t);
    } else {
      OtherStepsKeep(t, e);
    }
  }

  lemma {:induction false} RightRunsAreUndisturbed(moments: seq<Moment>, events: seq<Event>, matchers: nat, b: Buffer, n: nat)
    requires IsRun(moments, events, matchers, b) && n <= |events| && RightUpTo(moments, events, n)
    ensures ConditionUpTo(moments, events, n)
  {
    if n > 0 {
      RightRunsAreUndisturbed(moments, events, matchers, b, n - 1);
      RunHolds(moments, events, matchers, b, n - 1);
      RightStepIsUndisturbed(moments[n - 1], events[n - 1], moments[n]);
    }
  }

  lemma RightStepIsUndisturbed(t: Moment, e: Event, u: Moment)
    requires Holds(t) && u == Next(t, e) && (e.Refresh? ==> Right(u.index, t.buffer))
    ensures e.Refresh? ==> Condition(t)
  {
    if e.Refresh? { RefreshKeeps(t); }
  }

  /**
   * On every run: all refreshes leave exactly the decorations of a scan from scratch, each on the row its key names, if and only if
   * no refresh finds the rows it builds on disturbed since the one before.
   */
  lemma RefreshesAreRightIffUndisturbed(moments: seq<Moment>, events: seq<Event>, matchers: nat, b: Buffer)
    requires IsRun(moments, events, matchers, b)
    ensures RightUpTo(moments, events, |events|) <==> ConditionUpTo(moments, events, |events|)
  {
    if ConditionUpTo(moments, events, |events|) { RunHolds(moments, events, matchers, b, |events|); }
    if RightUpTo(moments, events, |events|) { RightRunsAreUndisturbed(moments, events, matchers, b, |events|); }
  }

  // ------------------------------------------------------------------ plain output

  /** Scrollback lost its first `amount` rows. */
  function Trimmed(amount: nat): Shift { y => if y < amount then None else Some(y - amount) }

  /** Rows were inserted at `row`. */
  function Inserted(row: int, amount: nat): Shift { y => if y < row then Some(y) else Some(y + amount) }

  /** Output that appends and rewrites rows in place, or trims scrollback. */
  ghost predicate PlainChange(shift: Shift) {
    (forall y :: shift(y) == Some(y)) || exists amount: nat :: amount > 0 && forall y :: shift(y) == Trimmed(amount)(y)
  }

  /** A trim was seen, or nothing is remembered, or no row has moved, the sentinel stands on row 0 and memoised rows are settled. */
  ghost predicate Steady(m: Memory) {
    || TrimSeen(m)
    || (m.sentinel.None? && m.rows == {} && WantedKeys(m.at) == {})
    || (m.sentinel == Some(0) && (forall y :: m.moved(y) == Some(y)) && forall y :: y in m.rows ==> Settled(m.at, y))
  }

  lemma SteadyIsUndisturbed(m: Memory, b: Buffer)
    requires Sound(m, b) && Steady(m) && !TrimSeen(m)
    ensures Undisturbed(m, b)
  {
    forall y | y in m.rows && InWindow(b, y) && RowKeys(m.at, y) == {} ensures RowKeys(b, y) == {} {
      assert Settled(m.at, y) && m.moved(y) == Some(y);
      assert SameLine(m.at.lines[y], b.lines[y]);
    }
  }

  lemma SteadyChange(m: Memory, f: Shift)
    requires Steady(m) && PlainChange(f)
    ensures Steady(m.(moved := Then(m.moved, f)))
  {
  }

  lemma SteadyRefresh(m: Memory, b: Buffer)
    requires Sound(m, b) && Steady(m)
    ensures Steady(AfterRefresh(m, b))
  {
    if TrimSeen(m) || m.sentinel.None? {
      var base := if TrimSeen(m) then Nothing() else m;
      assert forall y :: !StillMemoised(base, y);
      if |b.lines| == 0 { NoRowsNoKeys(b); }
    } else {
      forall y | StillMemoised(m, y) ensures Settled(b, y) {
        assert Settled(m.at, y) && m.moved(y) == Some(y);
      }
    }
  }

  lemma NoRowsNoKeys(b: Buffer)
    requires |b.lines| == 0
    ensures (forall y :: !InWindow(b, y)) && WantedKeys(b) == {}
  {
    forall y ensures !InWindow(b, y) {
      assert ScanEnd(b) <= -1;
    }
    forall k ensures k !in WantedKeys(b) {
      assert !Wanted(b, k);
    }
  }

  lemma {:induction false} PlainRunIsSteady(moments: seq<Moment>, events: seq<Event>, matchers: nat, b: Buffer, n: nat)
    requires IsRun(moments, events, matchers, b) && n <= |events|
    requires forall i :: 0 <= i < |events| && events[i].Change? ==> PlainChange(events[i].shift)
    ensures Holds(moments[n]) && Steady(moments[n].memory)
  {
    if n == 0 {
      StartIsSteady(matchers, b);
    } else {
      PlainRunIsSteady(moments, events, matchers, b, n - 1);
      PlainStep(moments[n - 1], events[n - 1], moments[n]);
    }
  }

  lemma StartIsSteady(matchers: nat, b: Buffer)
    ensures Holds(Moment(NewIndex(matchers), b, Nothing())) && Steady(Nothing())
  {
    BlankHasNothing();
    BlankIsEmpty(Nothing());
    NothingIsSound(b);
  }

  lemma PlainStep(t: Moment, e: Event, u: Moment)
    requires Holds(t) && Steady(t.memory) && u == Next(t, e)
    requires e.Change? ==> Evolves(t.buffer, e.after, e.shift) && PlainChange(e.shift)
    ensures Holds(u) && Steady(u.memory) && (e.Refresh? ==> Condition(t))
  {
    if e.Refresh? {
      if Effective(t) { SteadyIsUndisturbed(t.memory, t.buffer); }
      SteadyRefresh(t.memory, t.buffer);
    } else if e.Change? {
      SteadyChange(t.memory, e.shift);
    }
    StepHolds(t, e, u);
    BlankHasNothing();
  }

  /**
   * For output that moves no row except by trimming, in any run with resizes, matcher changes and suspensions, every refresh leaves
   * exactly the decorations of a scan from scratch, each on its row.
   */
  lemma PlainOutputIsRight(moments: seq<Moment>, events: seq<Event>, matchers: nat, b: Buffer)
    requires IsRun(moments, events, matchers, b)
    requires forall i :: 0 <= i < |events| && events[i].Change? ==> PlainChange(events[i].shift)
    ensures RightUpTo(moments, events, |events|)
  {
    forall i | 0 <= i < |events| && events[i].Refresh? ensures Condition(moments[i]) {
      PlainRunIsSteady(moments, events, matchers, b, i);
      if Effective(moments[i]) { SteadyIsUndisturbed(moments[i].memory, moments[i].buffer); }
    }
    RefreshesAreRightIffUndisturbed(moments, events, matchers, b);
  }

  // ------------------------------------------------------------------ inserted rows

  lemma FirstRefresh(b: Buffer, matchers: nat) returns (t: Moment)
    requires !b.alternate && matchers > 0 && |b.lines| > 0
    ensures t == Next(Moment(NewIndex(matchers), b, Nothing()), Refresh)
    ensures Holds(t) && !Off(t.index) && t.memory.sentinel == Some(0) && t.memory.at == b && t.buffer == b
    ensures forall y :: t.memory.moved(y) == Some(y)
  {
    var t0 := Moment(NewIndex(matchers), b, Nothing());
    t := Next(t0, Refresh);
    BlankHasNothing();
    BlankIsEmpty(Nothing());
    NothingIsSound(b);
    RefreshKeeps(t0);
  }

  lemma KeptIsDrawn(m: Memory, v: Index, b: Buffer, k: Key)
    requires v.drawn == DrawnOf(m) && v.memo == MemoOf(m) && Wanted(m.at, k) && Wanted(b, k) && m.moved(k.line).Some?
    ensures var drawn := WindowRefreshed(v, b).drawn; k in drawn && drawn[k] == m.moved(k.line).value
  {
    RequiredIff(m, v, b, k);
  }

  /** A kept decoration stays where its marker is. */
  lemma KeptStaysPut(t: Moment, k: Key)
    requires Holds(t) && Effective(t) && Wanted(t.memory.at, k) && Wanted(t.buffer, k) && t.memory.moved(k.line).Some?
    ensures var v := Refreshed(t.index, t.buffer); k in v.drawn && v.drawn[k] == t.memory.moved(k.line).value
  {
    KeptIsDrawn(t.memory, Prepared(t.index, t.buffer), t.buffer, k);
  }

  lemma InsertedRowsMove(t: Moment, c: Buffer, row: nat, amount: nat) returns (u: Moment)
    requires Holds(t) && Evolves(t.buffer, c, Inserted(row, amount)) && !c.alternate && !Off(t.index)
    requires t.memory.sentinel == Some(0) && forall y :: t.memory.moved(y) == Some(y)
    ensures u == Next(t, Change(c, Inserted(row, amount)))
    ensures Holds(u) && Effective(u) && u.memory.at == t.memory.at && u.memory.rows == t.memory.rows && u.buffer == c
    ensures forall y :: u.memory.moved(y) == Inserted(row, amount)(y)
  {
    u := Next(t, Change(c, Inserted(row, amount)));
    OtherStepsKeep(t, Change(c, Inserted(row, amount)));
  }

  lemma RunOfThree(b: Buffer, matchers: nat, e: Event) returns (moments: seq<Moment>)
    requires e.Change? && Evolves(b, e.after, e.shift)
    ensures IsRun(moments, [Refresh, e, Refresh], matchers, b)
    ensures var t1 := Next(Moment(NewIndex(matchers), b, Nothing()), Refresh);
            |moments| == 4 && moments[1] == t1 && moments[2] == Next(t1, e) && moments[3] == Next(moments[2], Refresh)
  {
    var t0 := Moment(NewIndex(matchers), b, Nothing());
    var t1 := Next(t0, Refresh);
    var t2 := Next(t1, e);
    moments := [t0, t1, t2, Next(t2, Refresh)];
  }

  /** A decoration below inserted rows that is wanted before and after is reused where its marker went, not where it belongs. */
  lemma InsertedRowsMisplace(b: Buffer, c: Buffer, matchers: nat, row: nat, amount: nat, k: Key) returns (moments: seq<Moment>)
    requires !b.alternate && !c.alternate && matchers > 0 && amount > 0 && Evolves(b, c, Inserted(row, amount))
    requires Wanted(b, k) && Wanted(c, k) && k.line >= row
    ensures IsRun(moments, [Refresh, Change(c, Inserted(row, amount)), Refresh], matchers, b)
    ensures k in moments[3].index.drawn && moments[3].index.drawn[k] == k.line + amount
    ensures !Right(moments[3].index, c)
  {
    moments := RunOfThree(b, matchers, Change(c, Inserted(row, amount)));
    var t1 := FirstRefresh(b, matchers);
    var t2 := InsertedRowsMove(t1, c, row, amount);
    var v := MovedKeyIsKept(t2, k, k.line + amount);
    MisplacedIsWrong(v, c, k);
  }

  lemma MovedKeyIsKept(t: Moment, k: Key, row: int) returns (v: Index)
    requires Holds(t) && Effective(t) && Wanted(t.memory.at, k) && Wanted(t.buffer, k) && t.memory.moved(k.line) == Some(row)
    ensures v == Next(t, Refresh).index && k in v.drawn && v.drawn[k] == row
  {
    KeptStaysPut(t, k);
    v := Refreshed(t.index, t.buffer);
  }

  lemma MisplacedIsWrong(v: Index, b: Buffer, k: Key)
    requires k in v.drawn && v.drawn[k] != k.line
    ensures !Right(v, b)
  {
  }

  /** Once rows were inserted at the top, the sentinel stands lower, and a trim of as many rows goes unnoticed. */
  lemma SentinelDrifts(v: Index, amount: nat)
    requires v.sentinel == Some(0) && !v.trimmed
    ensures var w := Shifted(Shifted(v, Inserted(0, amount)), Trimmed(amount)); !w.trimmed && w.sentinel == Some(0)
  {
  }

  // ------------------------------------------------------------------ a concrete screen

  /** A live screen of 24 rows on which two neighbouring rows carry equal spans. */
  function TwoLinks(first: nat): Buffer {
    Buffer(seq(24, y => Parsed(80, y, if y == first || y == first + 1 then [Span(0, 4)] else [])), 0, 0, 24, false)
  }

  lemma TwoLinksKeys(first: nat, k: Key)
    requires first < 23
    ensures Wanted(TwoLinks(first), k) <==> k == Key(first, 0, 4) || k == Key(first + 1, 0, 4)
    ensures !Settled(TwoLinks(first), k.line)
  {
    if 0 <= k.line < 24 {
      var line := TwoLinks(first).lines[k.line];
      if line.spans != [] {
        assert line.spans == [Span(0, 4)] && line.spans[1..] == [];
        assert SpanKeys(k.line, line.spans) == [Key(k.line, 0, 4)];
      }
    }
  }

  /** Without memoised rows, a wanted key that is not drawn yet is put on its row, and nothing else is. */
  lemma UnmemoisedRefresh(t: Moment, v: Index)
    requires Holds(t) && Effective(t) && t.memory.rows == {} && v == Next(t, Refresh).index
    ensures v.drawn.Keys == WantedKeys(t.buffer)
    ensures forall k :: k in v.drawn && !Wanted(t.memory.at, k) ==> v.drawn[k] == k.line
  {
    forall k ensures k in Required(Prepared(t.index, t.buffer), t.buffer) <==> Wanted(t.buffer, k) {
      RequiredIff(t.memory, Prepared(t.index, t.buffer), t.buffer, k);
    }
  }

  lemma ConcreteScreens(k: Key)
    ensures Wanted(TwoLinks(5), k) <==> k == Key(5, 0, 4) || k == Key(6, 0, 4)
    ensures Wanted(TwoLinks(6), k) <==> k == Key(6, 0, 4) || k == Key(7, 0, 4)
    ensures !Settled(TwoLinks(5), k.line) && !Settled(TwoLinks(6), k.line)
  {
    TwoLinksKeys(5, k);
    TwoLinksKeys(6, k);
  }

  /** What a refresh leaves on screen `c` when links 5 and 6 of screen `b` have moved down by one. */
  lemma TwoOnOneRow(t: Moment, b: Buffer, c: Buffer) returns (v: Index)
    requires Holds(t) && Effective(t) && t.memory.rows == {} && t.memory.at == b && t.buffer == c
    requires forall k :: Wanted(b, k) <==> k == Key(5, 0, 4) || k == Key(6, 0, 4)
    requires forall k :: Wanted(c, k) <==> k == Key(6, 0, 4) || k == Key(7, 0, 4)
    requires t.memory.moved(6) == Some(7)
    ensures v == Next(t, Refresh).index
    ensures v.drawn.Keys == WantedKeys(c) == {Key(6, 0, 4), Key(7, 0, 4)} && v.drawn[Key(6, 0, 4)] == 7 && v.drawn[Key(7, 0, 4)] == 7
  {
    v := MovedKeyIsKept(t, Key(6, 0, 4), 7);
    UnmemoisedRefresh(t, v);
    TwoWanted(c, Key(6, 0, 4), Key(7, 0, 4));
  }

  lemma TwoWanted(c: Buffer, a: Key, b: Key)
    requires forall k :: Wanted(c, k) <==> k == a || k == b
    ensures WantedKeys(c) == {a, b}
  {
  }

  /**
   * Rows 5 and 6 are links and one line is inserted at row 5. The next refresh wants a decoration on rows 6 and 7, and leaves two on
   * row 7 and none on row 6.
   */
  lemma InsertedLineDrawsRowTwice(b: Buffer, c: Buffer) returns (moments: seq<Moment>)
    requires b == TwoLinks(5) && c == TwoLinks(6)
    ensures IsRun(moments, [Refresh, Change(c, Inserted(5, 1)), Refresh], 1, b)
    ensures var drawn := moments[3].index.drawn;
            && drawn.Keys == WantedKeys(c) == {Key(6, 0, 4), Key(7, 0, 4)}
            && drawn[Key(6, 0, 4)] == 7 && drawn[Key(7, 0, 4)] == 7
  {
    NothingSettled(b, c);
    moments := RunOfThree(b, 1, Change(c, Inserted(5, 1)));
    var t1 := FirstRefresh(b, 1);
    NoRowsMemoised(b);
    var t2 := InsertedRowsMove(t1, c, 5, 1);
    var v := TwoOnOneRow(t2, b, c);
  }

  lemma NothingSettled(b: Buffer, c: Buffer)
    requires b == TwoLinks(5) && c == TwoLinks(6)
    ensures forall y :: !Settled(b, y)
    ensures forall k :: Wanted(b, k) <==> k == Key(5, 0, 4) || k == Key(6, 0, 4)
    ensures forall k :: Wanted(c, k) <==> k == Key(6, 0, 4) || k == Key(7, 0, 4)
    ensures |b.lines| == 24 && !b.alternate && !c.alternate
  {
    forall k
      ensures Wanted(b, k) <==> k == Key(5, 0, 4) || k == Key(6, 0, 4)
      ensures Wanted(c, k) <==> k == Key(6, 0, 4) || k == Key(7, 0, 4)
    {
      ConcreteScreens(k);
    }
    forall y ensures !Settled(b, y) {
      ConcreteScreens(Key(y, 0, 0));
    }
  }

  lemma NoRowsMemoised(b: Buffer)
    requires forall y :: !Settled(b, y)
    ensures AfterRefresh(Nothing(), b).rows == {}
  {
    assert !TrimSeen(Nothing()) && forall y :: !StillMemoised(Nothing(), y);
  }
}
