/** The decoration layer of src/lib/actionLinksAddon.ts as the source writes it: caches, callbacks and loops. */
module DecorationLayer {
  import opened Text
  import opened DecorationIndex

  /** A decoration in the terminal: the key it was made for and the row its marker stands on. */
  datatype Decoration = Decoration(key: Key, row: int)

  function Dropped(keys: seq<Key>, key: Key): (r: seq<Key>)
    ensures forall k :: k in r <==> k in keys && k != key
  {
    if keys == [] then []
    else if keys[0] == key then Dropped(keys[1..], key)
    else [keys[0]] + Dropped(keys[1..], key)
  }

  lemma SpanKeysStep(before: seq<Key>, y: int, spans: seq<Span>, i: nat)
    requires i < |spans|
    ensures before + SpanKeys(y, spans[i..]) ==
            if spans[i].width <= 0 then before + SpanKeys(y, spans[i + 1..])
            else before + [Key(y, spans[i].col, spans[i].width)] + SpanKeys(y, spans[i + 1..])
  {
    assert spans[i..][1..] == spans[i + 1..];
  }

  function Remembered(memo: map<int, seq<Key>>, y: int): seq<Key> { if y in memo then memo[y] else [] }

  // ------------------------------------------------------------------ what the caches mean

  /** Cache and terminal agree one to one, nothing that left the cache is alive, and `drawn` gives the rows of the decorations. */
  ghost predicate Owns(decos: map<Key, nat>, live: map<nat, Decoration>, nextHandle: nat, drawn: map<Key, int>) {
    && drawn.Keys == decos.Keys
    && (forall k :: k in decos ==> decos[k] in live && live[decos[k]] == Decoration(k, drawn[k]))
    && (forall h :: h in live ==> h < nextHandle && live[h].key in decos && decos[live[h].key] == h)
  }

  /** Remembered rows are memoised ones; what they remember is not empty, lies on them and is alive. */
  ghost predicate Remembers(lines: map<int, seq<Key>>, scanned: set<int>, decos: map<Key, nat>) {
    && lines.Keys <= scanned
    && (forall y :: y in lines ==> lines[y] != [])
    && (forall y, k :: y in lines && k in lines[y] ==> k.line == y && k in decos)
  }

  /** `memo` gives every memoised row the keys it remembers. */
  ghost predicate Memoises(memo: map<int, set<Key>>, lines: map<int, seq<Key>>, scanned: set<int>) {
    memo.Keys == scanned && forall y :: y in scanned ==> memo[y] == Elements(Remembered(lines, y))
  }

  lemma OtherRowsForgetNothing(lines: map<int, seq<Key>>, scanned: set<int>, decos: map<Key, nat>, key: Key, y: int)
    requires Remembers(lines, scanned, decos) && (y != key.line || y !in lines)
    ensures Elements(Remembered(lines, y)) - {key} == Elements(Remembered(lines, y))
  {
  }

  /** Callback of a key whose row remembers nothing. */
  lemma MemoUntouched(lines: map<int, seq<Key>>, scanned: set<int>, decos: map<Key, nat>, key: Key, v: Index)
    requires Remembers(lines, scanned, decos) && Memoises(v.memo, lines, scanned) && key.line !in lines
    ensures Disposed(v, {key}).memo == v.memo
  {
    forall y | y in scanned ensures v.memo[y] - {key} == v.memo[y] {
      OtherRowsForgetNothing(lines, scanned, decos, key, y);
    }
  }

  lemma RowKeepsRest(lines: map<int, seq<Key>>, key: Key, rest: seq<Key>)
    requires key.line in lines && lines[key.line] != [] && rest == Dropped(lines[key.line], key)
    ensures Elements(lines[key.line]) - {key} == Elements(rest) && Elements(lines[key.line]) != {}
    ensures Elements(rest) == {} <==> rest == []
  {
    assert lines[key.line][0] in Elements(lines[key.line]);
    if rest != [] { assert rest[0] in Elements(rest); }
  }

  /** Callback of the last key of its row. */
  lemma MemoRowForgotten(lines: map<int, seq<Key>>, scanned: set<int>, decos: map<Key, nat>, key: Key, v: Index)
    requires Remembers(lines, scanned, decos) && Memoises(v.memo, lines, scanned)
    requires key.line in lines && Dropped(lines[key.line], key) == []
    ensures Memoises(Disposed(v, {key}).memo, lines - {key.line}, scanned - {key.line})
  {
    RowKeepsRest(lines, key, []);
    forall y | y in scanned && y != key.line ensures v.memo[y] - {key} == Elements(Remembered(lines - {key.line}, y)) {
      OtherRowsForgetNothing(lines, scanned, decos, key, y);
    }
    assert v.memo[key.line] != {} && v.memo[key.line] - {key} == {};
    forall y | y in scanned && y != key.line ensures y in Disposed(v, {key}).memo {
      OtherRowsForgetNothing(lines, scanned, decos, key, y);
      assert v.memo[y] - {key} == v.memo[y];
    }
  }

  /** Callback of one key of several. */
  lemma MemoRowShrinks(lines: map<int, seq<Key>>, scanned: set<int>, decos: map<Key, nat>, key: Key, rest: seq<Key>, v: Index)
    requires Remembers(lines, scanned, decos) && Memoises(v.memo, lines, scanned)
    requires key.line in lines && rest == Dropped(lines[key.line], key) && rest != []
    ensures Memoises(Disposed(v, {key}).memo, lines[key.line := rest], scanned)
  {
    RowKeepsRest(lines, key, rest);
    forall y | y in scanned ensures v.memo[y] - {key} == Elements(Remembered(lines[key.line := rest], y)) {
      if y != key.line { OtherRowsForgetNothing(lines, scanned, decos, key, y); }
    }
  }

  lemma RemembersWithout(lines: map<int, seq<Key>>, scanned: set<int>, decos: map<Key, nat>, key: Key)
    requires Remembers(lines, scanned, decos) && (key.line in lines ==> key !in lines[key.line])
    ensures Remembers(lines, scanned, decos - {key})
  {
    forall y, k | y in lines && k in lines[y] ensures k.line == y && k in decos - {key} {}
  }

  lemma RemembersLessOneRow(lines: map<int, seq<Key>>, scanned: set<int>, decos: map<Key, nat>, y: int)
    requires Remembers(lines, scanned, decos)
    ensures Remembers(lines - {y}, scanned - {y}, decos)
  {
  }

  lemma RemembersShorterRow(lines: map<int, seq<Key>>, scanned: set<int>, decos: map<Key, nat>, y: int, rest: seq<Key>)
    requires Remembers(lines, scanned, decos) && y in lines && rest != [] && forall k :: k in rest ==> k in lines[y]
    ensures Remembers(lines[y := rest], scanned, decos)
  {
  }

  lemma OwnsAfterDispose(decos: map<Key, nat>, live: map<nat, Decoration>, nextHandle: nat, drawn: map<Key, int>, key: Key)
    requires Owns(decos, live, nextHandle, drawn) && key in decos
    ensures Owns(decos - {key}, live - {decos[key]}, nextHandle, drawn - {key})
  {
  }

  lemma OwnsAfterCreate(decos: map<Key, nat>, live: map<nat, Decoration>, nextHandle: nat, drawn: map<Key, int>, key: Key)
    requires Owns(decos, live, nextHandle, drawn) && key !in decos
    ensures Owns(decos[key := nextHandle], live[nextHandle := Decoration(key, key.line)], nextHandle + 1, Placed(drawn, {key}))
  {
  }

  lemma RemembersGrows(lines: map<int, seq<Key>>, scanned: set<int>, decos: map<Key, nat>, more: map<Key, nat>)
    requires Remembers(lines, scanned, decos) && decos.Keys <= more.Keys
    ensures Remembers(lines, scanned, more)
  {
  }

  function Filed(lines: map<int, seq<Key>>, y: int, keys: seq<Key>): map<int, seq<Key>> {
    if |keys| > 0 then lines[y := keys] else lines - {y}
  }

  lemma RemembersAfterMemoise(lines: map<int, seq<Key>>, scanned: set<int>, decos: map<Key, nat>, y: int, keys: seq<Key>)
    requires Remembers(lines, scanned, decos) && y !in scanned && forall k :: k in keys ==> k.line == y && k in decos
    ensures Remembers(Filed(lines, y, keys), scanned + {y}, decos)
    ensures forall memo :: Memoises(memo, lines, scanned) ==> Memoises(memo[y := Elements(keys)], Filed(lines, y, keys), scanned + {y})
  {
    assert Remembered(Filed(lines, y, keys), y) == keys;
    forall z | z in scanned ensures Remembered(Filed(lines, y, keys), z) == Remembered(lines, z) {}
  }

  function SentinelShifted(v: Index, shift: Shift): Index {
    if v.sentinel.None? then v
    else v.(sentinel := shift(v.sentinel.value), trimmed := v.trimmed || shift(v.sentinel.value).None?)
  }

  lemma SurvivorsFollow(v: Index, shift: Shift)
    ensures var w := Disposed(v, Lost(v, shift));
            && (forall k :: k in w.drawn ==> shift(w.drawn[k]).Some?)
            && Shifted(v, shift) == SentinelShifted(w.(drawn := RowsAfter(w.drawn, shift)), shift)
  {
    var w := Disposed(v, Lost(v, shift));
    assert Shifted(v, shift).drawn == RowsAfter(w.drawn, shift);
  }

  lemma ElementsAppend(keys: seq<Key>, key: Key)
    ensures Elements(keys + [key]) == Elements(keys) + {key}
  {
  }

  lemma RememberedIsDrawn(lines: map<int, seq<Key>>, scanned: set<int>, decos: map<Key, nat>, v: Index)
    requires Remembers(lines, scanned, decos) && Memoises(v.memo, lines, scanned) && v.drawn.Keys == decos.Keys
    ensures MemoIsDrawn(v)
  {
  }

  lemma ForgetRows(lines: map<int, seq<Key>>, scanned: set<int>, decos: map<Key, nat>, b: Buffer, outside: set<int>)
    requires Remembers(lines, scanned, decos) && outside == set y | y in scanned && !InWindow(b, y)
    ensures Remembers(lines - outside, scanned - outside, decos)
    ensures forall memo :: Memoises(memo, lines, scanned) ==> Memoises(Inside(b, memo), lines - outside, scanned - outside)
  {
    forall y | y in scanned - outside ensures Remembered(lines - outside, y) == Remembered(lines, y) {}
  }

  /** Markers follow their rows. */
  function Followed(live: map<nat, Decoration>, shift: Shift): map<nat, Decoration> {
    map h | h in live :: live[h].(row := if shift(live[h].row).Some? then shift(live[h].row).value else live[h].row)
  }

  function RowsAfter(drawn: map<Key, int>, shift: Shift): map<Key, int>
    requires forall k :: k in drawn ==> shift(drawn[k]).Some?
  {
    map k | k in drawn :: shift(drawn[k]).value
  }

  method MoveMarkers(live: map<nat, Decoration>, shift: Shift, ghost decos: map<Key, nat>, ghost nextHandle: nat, ghost drawn: map<Key, int>)
    returns (moved: map<nat, Decoration>, ghost rows: map<Key, int>)
    requires Owns(decos, live, nextHandle, drawn) && forall k :: k in drawn ==> shift(drawn[k]).Some?
    ensures Owns(decos, moved, nextHandle, rows) && rows == RowsAfter(drawn, shift)
  {
    OwnsAfterMove(decos, live, nextHandle, shift, drawn);
    moved, rows := Followed(live, shift), RowsAfter(drawn, shift);
  }

  lemma OwnsAfterMove(decos: map<Key, nat>, live: map<nat, Decoration>, nextHandle: nat, shift: Shift, drawn: map<Key, int>)
    requires Owns(decos, live, nextHandle, drawn) && forall k :: k in drawn ==> shift(drawn[k]).Some?
    ensures Owns(decos, Followed(live, shift), nextHandle, RowsAfter(drawn, shift))
  {
  }

  lemma DisposedStep(v: Index, gone: set<Key>, key: Key)
    ensures Disposed(Disposed(v, gone), {key}) == Disposed(v, gone + {key})
  {
    forall y | y in v.memo ensures v.memo[y] - gone - {key} == v.memo[y] - (gone + {key}) {}
    assert v.drawn - gone - {key} == v.drawn - (gone + {key});
  }

  lemma DisposedNone(v: Index)
    ensures Disposed(v, {}) == v
  {
    assert v.drawn - {} == v.drawn;
    forall y | y in v.memo ensures v.memo[y] - {} == v.memo[y] {}
  }

  // ------------------------------------------------------------------ a refresh, row by row

  /** Keys that are not drawn yet are put on their own rows. */
  function Placed(drawn: map<Key, int>, keys: set<Key>): map<Key, int> {
    map k | k in drawn.Keys + keys :: if k in drawn then drawn[k] else k.line
  }

  lemma PlacedMore(drawn: map<Key, int>, a: set<Key>, b: set<Key>)
    ensures Placed(Placed(drawn, a), b) == Placed(drawn, a + b)
  {
  }

  lemma PlacedNone(drawn: map<Key, int>, keys: set<Key>)
    requires keys <= drawn.Keys
    ensures Placed(drawn, keys) == drawn
  {
  }

  /** One row: a memoised one is left alone, any other is decorated, and memoised if it is settled. */
  function RowScanned(v: Index, b: Buffer, y: int): Index {
    if y in v.memo then v
    else v.(drawn := Placed(v.drawn, RowKeys(b, y)), memo := if Settled(b, y) then v.memo[y := RowKeys(b, y)] else v.memo)
  }

  function RequiredBelow(v: Index, b: Buffer, n: int): set<Key> {
    set y, k | ScanStart(b) <= y < n && k in Needs(v, b, y) :: k
  }

  function RowsBelow(v: Index, b: Buffer, n: int): set<int> { v.memo.Keys + set y | ScanStart(b) <= y < n && Settled(b, y) }

  function DrawnBelow(v: Index, b: Buffer, n: int): map<Key, int> { Placed(v.drawn, RequiredBelow(v, b, n)) }

  function MemoBelow(v: Index, b: Buffer, n: int): map<int, set<Key>> { map y | y in RowsBelow(v, b, n) :: Needs(v, b, y) }

  /** The index when all rows of the window before `n` have been scanned. */
  function ScannedBelow(v: Index, b: Buffer, n: int): Index { v.(drawn := DrawnBelow(v, b, n), memo := MemoBelow(v, b, n)) }

  ghost predicate MemoIsDrawn(v: Index) { forall y :: y in v.memo ==> v.memo[y] <= v.drawn.Keys }

  lemma RequiredStep(v: Index, b: Buffer, n: int)
    requires ScanStart(b) <= n
    ensures RequiredBelow(v, b, n + 1) == RequiredBelow(v, b, n) + Needs(v, b, n)
  {
    forall k | k in Needs(v, b, n) ensures k in RequiredBelow(v, b, n + 1) {}
  }

  lemma RowsStep(v: Index, b: Buffer, n: int)
    requires ScanStart(b) <= n
    ensures RowsBelow(v, b, n + 1) == if Settled(b, n) then RowsBelow(v, b, n) + {n} else RowsBelow(v, b, n)
    ensures n in RowsBelow(v, b, n) <==> n in v.memo
  {
  }

  lemma DrawnStep(v: Index, b: Buffer, n: int)
    requires ScanStart(b) <= n && MemoIsDrawn(v)
    ensures DrawnBelow(v, b, n + 1) == if n in v.memo then DrawnBelow(v, b, n) else Placed(DrawnBelow(v, b, n), RowKeys(b, n))
  {
    RequiredStep(v, b, n);
    PlacedMore(v.drawn, RequiredBelow(v, b, n), Needs(v, b, n));
    if n in v.memo {
      PlacedNone(DrawnBelow(v, b, n), Needs(v, b, n));
    }
  }

  lemma MemoStep(v: Index, b: Buffer, n: int)
    requires ScanStart(b) <= n
    ensures MemoBelow(v, b, n + 1) == if n !in v.memo && Settled(b, n) then MemoBelow(v, b, n)[n := RowKeys(b, n)] else MemoBelow(v, b, n)
    ensures n in MemoBelow(v, b, n) <==> n in v.memo
    ensures n in v.memo ==> MemoBelow(v, b, n)[n] == v.memo[n]
  {
    RowsStep(v, b, n);
  }

  lemma ScanStep(v: Index, b: Buffer, n: int)
    requires ScanStart(b) <= n && MemoIsDrawn(v)
    ensures RowScanned(ScannedBelow(v, b, n), b, n) == ScannedBelow(v, b, n + 1)
    ensures RequiredBelow(v, b, n + 1) == RequiredBelow(v, b, n) + Needs(ScannedBelow(v, b, n), b, n)
  {
    DrawnStep(v, b, n);
    MemoStep(v, b, n);
    RequiredStep(v, b, n);
  }

  /** The scan as two sequences: the index and the keys required so far, row after row. */
  lemma ScanPlan(v: Index, b: Buffer) returns (at: int -> Index, need: int -> set<Key>)
    requires MemoIsDrawn(v)
    ensures at(ScanStart(b)) == v && need(ScanStart(b)) == {}
    ensures forall n {:trigger RowScanned(at(n), b, n)} :: ScanStart(b) <= n ==>
              at(n + 1) == RowScanned(at(n), b, n) && need(n + 1) == need(n) + Needs(at(n), b, n)
    ensures at(Past(b)) == ScannedBelow(v, b, Past(b)) && need(Past(b)) == Required(v, b)
  {
    at, need := n => ScannedBelow(v, b, n), n => RequiredBelow(v, b, n);
    ScanBegins(v, b);
    ScanEnds(v, b);
    forall n | ScanStart(b) <= n
      ensures at(n + 1) == RowScanned(at(n), b, n) && need(n + 1) == need(n) + Needs(at(n), b, n)
    {
      ScanStep(v, b, n);
    }
  }

  lemma ScanBegins(v: Index, b: Buffer)
    ensures ScannedBelow(v, b, ScanStart(b)) == v && RequiredBelow(v, b, ScanStart(b)) == {}
  {
    PlacedNone(v.drawn, {});
  }

  /** The row after the last one to scan. */
  function Past(b: Buffer): int { if ScanStart(b) <= ScanEnd(b) then ScanEnd(b) + 1 else ScanStart(b) }

  lemma ScanEnds(v: Index, b: Buffer)
    ensures RequiredBelow(v, b, Past(b)) == Required(v, b)
  {
  }

  function Inside(b: Buffer, memo: map<int, set<Key>>): map<int, set<Key>> { map y | y in memo && InWindow(b, y) :: memo[y] }

  /** Evicting what no row needs and forgetting rows outside the window completes the refresh. */
  lemma EvictionEnds(v: Index, b: Buffer, stale: set<Key>)
    requires stale == ScannedBelow(v, b, Past(b)).drawn.Keys - Required(v, b)
    ensures var w := Disposed(ScannedBelow(v, b, Past(b)), stale);
            w.drawn == WindowRefreshed(v, b).drawn && Inside(b, w.memo) == WindowRefreshed(v, b).memo
  {
    ScanEnds(v, b);
    forall y | InWindow(b, y) ensures Needs(v, b, y) - stale == Needs(v, b, y) {
      forall k | k in Needs(v, b, y) ensures k in Required(v, b) {}
    }
    EvictedMemo(v, b, stale);
    EvictedDrawn(v.drawn, Required(v, b), stale);
  }

  lemma EvictedDrawn(drawn: map<Key, int>, required: set<Key>, stale: set<Key>)
    requires stale == Placed(drawn, required).Keys - required
    ensures Placed(drawn, required) - stale == map k | k in required :: if k in drawn then drawn[k] else k.line
  {
  }

  lemma EvictedMemo(v: Index, b: Buffer, stale: set<Key>)
    requires forall y :: InWindow(b, y) ==> Needs(v, b, y) - stale == Needs(v, b, y)
    ensures Inside(b, Disposed(ScannedBelow(v, b, Past(b)), stale).memo) == WindowRefreshed(v, b).memo
  {
    forall y | InWindow(b, y) ensures y in RowsBelow(v, b, Past(b)) <==> y in MemoRows(v, b) {}
  }

  // ------------------------------------------------------------------ the addon

  class ActionLinksAddon {
    var decoCache: map<Key, nat>
    var lineToDecoKeys: map<int, seq<Key>>
    var scanned: set<int>
    var sentinel: bool
    var bufferTrimmed: bool
    var suspended: bool
    var matchers: nat

    // the terminal's side: decorations that exist, the next handle, the row of the sentinel's marker
    var live: map<nat, Decoration>
    var nextHandle: nat
    var sentinelRow: int

    /** What the caches amount to. */
    ghost var index: Index

    ghost predicate Valid()
      reads this
    {
      && Owns(decoCache, live, nextHandle, index.drawn)
      && Remembers(lineToDecoKeys, scanned, decoCache) && Memoises(index.memo, lineToDecoKeys, scanned)
      && index.sentinel == (if sentinel then Some(sentinelRow) else None)
      && index.trimmed == bufferTrimmed && index.suspended == suspended && index.matchers == matchers
    }

    constructor (matchers: nat)
      ensures Valid() && index == NewIndex(matchers)
    {
      decoCache, lineToDecoKeys, scanned := map[], map[], {};
      sentinel, bufferTrimmed, suspended := false, false, false;
      this.matchers, nextHandle, sentinelRow, live := matchers, 0, 0, map[];
      index := NewIndex(matchers);
    }

    // ---------------------------------------------------------------- disposal

    /** The callback every decoration carries: forget the key; a row left without keys must be scanned again. */
    method OnDispose(key: Key)
      requires Remembers(lineToDecoKeys, scanned, decoCache) && Memoises(index.memo, lineToDecoKeys, scanned)
      modifies this`decoCache, this`lineToDecoKeys, this`scanned
      ensures decoCache == old(decoCache) - {key} && Remembers(lineToDecoKeys, scanned, decoCache)
      ensures Memoises(Disposed(index, {key}).memo, lineToDecoKeys, scanned)
    {
      ghost var lines, rows, decos := lineToDecoKeys, scanned, decoCache;
      decoCache := decoCache - {key};
      if key.line in lineToDecoKeys {
        var filtered := Dropped(lineToDecoKeys[key.line], key);
        if |filtered| == 0 {
          lineToDecoKeys := lineToDecoKeys - {key.line};
          scanned := scanned - {key.line};
          MemoRowForgotten(lines, rows, decos, key, index);
          RemembersLessOneRow(lines, rows, decos, key.line);
        } else {
          lineToDecoKeys := lineToDecoKeys[key.line := filtered];
          MemoRowShrinks(lines, rows, decos, key, filtered, index);
          RemembersShorterRow(lines, rows, decos, key.line, filtered);
        }
      } else {
        MemoUntouched(lines, rows, decos, key, index);
      }
      RemembersWithout(lineToDecoKeys, scanned, decos, key);
    }

    /** Disposes one decoration, callback included. */
    method Dispose(key: Key)
      requires Valid() && key in decoCache
      modifies this`decoCache, this`lineToDecoKeys, this`scanned, this`live, this`index
      ensures Valid() && index == Disposed(old(index), {key}) && decoCache == old(decoCache) - {key}
    {
      OwnsAfterDispose(decoCache, live, nextHandle, index.drawn, key);
      live := live - {decoCache[key]};
      OnDispose(key);
      index := Disposed(index, {key});
    }

    /** Disposes decorations one after the other. */
    method DisposeAll(keys: set<Key>)
      requires Valid() && keys <= decoCache.Keys
      modifies this`decoCache, this`lineToDecoKeys, this`scanned, this`live, this`index
      ensures Valid() && index == Disposed(old(index), keys) && decoCache == old(decoCache) - keys
    {
      var todo := keys;
      ghost var done: set<Key> := {};
      DisposedNone(index);
      assert old(decoCache) - {} == old(decoCache);
      while todo != {}
        invariant Valid() && todo + done == keys && todo !! done && decoCache == old(decoCache) - done
        invariant index == Disposed(old(index), done)
      {
        var key :| key in todo;
        DisposedStep(old(index), done, key);
        Dispose(key);
        assert old(decoCache) - done - {key} == old(decoCache) - (done + {key});
        todo, done := todo - {key}, done + {key};
      }
      assert done == keys;
    }

    method ClearAll()
      requires Valid()
      modifies this
      ensures Valid() && index == Cleared(old(index)) && live == map[]
    {
      var entries := decoCache;
      decoCache, lineToDecoKeys, scanned := map[], map[], {};
      sentinel, bufferTrimmed := false, false;
      DisposeEntries(entries, index.drawn);
      index := Cleared(index);
    }

    method DisposeEntries(entries: map<Key, nat>, ghost drawn: map<Key, int>)
      requires Owns(entries, live, nextHandle, drawn)
      modifies this`live
      ensures live == map[]
    {
      var todo := entries;
      ghost var rows := drawn;
      while todo != map[]
        invariant Owns(todo, live, nextHandle, rows)
        decreases |todo|
      {
        var key :| key in todo;
        OwnsAfterDispose(todo, live, nextHandle, rows, key);
        live := live - {todo[key]};
        assert (todo - {key}).Keys == todo.Keys - {key};
        todo, rows := todo - {key}, rows - {key};
      }
    }

    // ---------------------------------------------------------------- creation

    /** A marker on the row of the key, and a decoration on the marker. */
    method Create(key: Key)
      requires Valid() && key !in decoCache
      modifies this`decoCache, this`live, this`nextHandle, this`index
      ensures Valid() && index == old(index).(drawn := Placed(old(index).drawn, {key}))
    {
      OwnsAfterCreate(decoCache, live, nextHandle, index.drawn, key);
      RemembersGrows(lineToDecoKeys, scanned, decoCache, decoCache[key := nextHandle]);
      decoCache, live := decoCache[key := nextHandle], live[nextHandle := Decoration(key, key.line)];
      nextHandle := nextHandle + 1;
      index := index.(drawn := Placed(index.drawn, {key}));
    }

    method EnsureDecoration(y: int, span: Span) returns (key: Key, made: bool)
      requires Valid()
      modifies this`decoCache, this`live, this`nextHandle, this`index
      ensures Valid() && made == (span.width > 0) && key == Key(y, span.col, span.width)
      ensures index == if made then old(index).(drawn := Placed(old(index).drawn, {key})) else old(index)
    {
      key := Key(y, span.col, span.width);
      if span.width <= 0 { return key, false; }
      if key in decoCache {
        PlacedNone(index.drawn, {key});
        return key, true;
      }
      Create(key);
      return key, true;
    }

    /** One decoration per span of the row; the keys come back in span order. */
    method DecorateRow(y: int, spans: seq<Span>) returns (keys: seq<Key>)
      requires Valid()
      modifies this`decoCache, this`live, this`nextHandle, this`index
      ensures Valid() && keys == SpanKeys(y, spans)
      ensures index == old(index).(drawn := Placed(old(index).drawn, Elements(keys)))
    {
      keys := [];
      PlacedNone(index.drawn, {});
      for i := 0 to |spans|
        invariant Valid() && keys + SpanKeys(y, spans[i..]) == SpanKeys(y, spans)
        invariant index == old(index).(drawn := Placed(old(index).drawn, Elements(keys)))
      {
        SpanKeysStep(keys, y, spans, i);
        var key, made := EnsureDecoration(y, spans[i]);
        if made {
          ElementsAppend(keys, key);
          PlacedMore(old(index).drawn, Elements(keys), {key});
          keys := keys + [key];
        }
      }
      assert keys + [] == keys;
    }

    // ---------------------------------------------------------------- refresh

    /** Files the keys of a settled row. */
    method Memoise(y: int, keys: seq<Key>)
      requires Valid() && y !in scanned && forall k :: k in keys ==> k.line == y && k in decoCache
      modifies this`lineToDecoKeys, this`scanned, this`index
      ensures Valid() && index == old(index).(memo := old(index).memo[y := Elements(keys)])
    {
      RemembersAfterMemoise(lineToDecoKeys, scanned, decoCache, y, keys);
      scanned := scanned + {y};
      if |keys| > 0 {
        lineToDecoKeys := lineToDecoKeys[y := keys];
      } else {
        lineToDecoKeys := lineToDecoKeys - {y};
      }
      index := index.(memo := index.memo[y := Elements(keys)]);
    }

    /** The loop body: reuse the memo, or decorate the row and memoise it if it is settled. */
    method ScanRow(b: Buffer, y: int, required: set<Key>) returns (r: set<Key>)
      requires Valid() && 0 <= y < |b.lines|
      modifies this`decoCache, this`lineToDecoKeys, this`scanned, this`live, this`nextHandle, this`index
      ensures Valid() && index == RowScanned(old(index), b, y) && r == required + Needs(old(index), b, y)
    {
      if y in scanned {
        return required + Elements(Remembered(lineToDecoKeys, y));
      }
      var line := b.lines[y];
      var keys: seq<Key> := [];
      if line.Parsed? && line.chars <= MAX_LOGICAL_LINE_SCAN_CHARS {
        keys := DecorateRow(y, line.spans);
      } else {
        PlacedNone(index.drawn, {});
      }
      assert keys == LineKeys(y, line) && forall k :: k in keys ==> k in index.drawn;
      if Settled(b, y) {
        Memoise(y, keys);
      }
      return required + Elements(keys);
    }

    method ScanRows(b: Buffer) returns (required: set<Key>)
      requires Valid()
      modifies this`decoCache, this`lineToDecoKeys, this`scanned, this`live, this`nextHandle, this`index
      ensures Valid() && index == ScannedBelow(old(index), b, Past(b)) && required == Required(old(index), b)
    {
      required := {};
      RememberedIsDrawn(lineToDecoKeys, scanned, decoCache, index);
      ghost var at, need := ScanPlan(index, b);
      for y := ScanStart(b) to Past(b)
        invariant Valid() && index == at(y) && required == need(y)
      {
        required := ScanRow(b, y, required);
      }
    }

    /** Forgets the memo of rows that left the window. */
    method ForgetOutside(b: Buffer)
      requires Valid()
      modifies this`lineToDecoKeys, this`scanned, this`index
      ensures Valid() && index == old(index).(memo := Inside(b, old(index).memo))
    {
      var outside := set y | y in scanned && !InWindow(b, y);
      ForgetRows(lineToDecoKeys, scanned, decoCache, b, outside);
      scanned := scanned - outside;
      lineToDecoKeys := lineToDecoKeys - outside;
      index := index.(memo := Inside(b, index.memo));
    }

    method RefreshWindow(b: Buffer)
      requires Valid()
      modifies this`decoCache, this`lineToDecoKeys, this`scanned, this`live, this`nextHandle, this`index
      ensures Valid() && index == WindowRefreshed(old(index), b)
    {
      var required := ScanRows(b);
      var stale := decoCache.Keys - required;
      EvictionEnds(old(index), b, stale);
      DisposeAll(stale);
      ForgetOutside(b);
    }

    /** `_refreshDecorations`; the sentinel is put on row 0 once there is a row to hold it. */
    method Refresh(b: Buffer)
      requires Valid()
      modifies this
      ensures Valid() && index == Refreshed(old(index), b)
    {
      if suspended || matchers == 0 { return; }
      if b.alternate {
        ClearAll();
        return;
      }
      if bufferTrimmed { ClearAll(); }
      if !sentinel && |b.lines| > 0 {
        sentinel, sentinelRow := true, 0;
        index := index.(sentinel := Some(0));
      }
      RefreshWindow(b);
    }

    // ---------------------------------------------------------------- terminal events

    /** Rows move: markers on lost rows are disposed with their decorations, the others follow; so does the sentinel. */
    method OnRowsMoved(shift: Shift)
      requires Valid()
      modifies this
      ensures Valid() && index == Shifted(old(index), shift)
    {
      var lost := set k | k in decoCache && shift(live[decoCache[k]].row).None?;
      assert lost == Lost(index, shift);
      SurvivorsFollow(index, shift);
      DisposeAll(lost);
      FollowRows(shift);
      FollowSentinel(shift);
    }

    method FollowSentinel(shift: Shift)
      requires Valid()
      modifies this`sentinel, this`bufferTrimmed, this`sentinelRow, this`index
      ensures Valid() && index == SentinelShifted(old(index), shift)
    {
      if sentinel {
        if shift(sentinelRow).None? {
          sentinel, bufferTrimmed := false, true;
        } else {
          sentinelRow := shift(sentinelRow).value;
        }
      }
      index := SentinelShifted(index, shift);
    }

    method FollowRows(shift: Shift)
      requires Valid() && forall k :: k in index.drawn ==> shift(index.drawn[k]).Some?
      modifies this`live, this`index
      ensures Valid() && index == old(index).(drawn := RowsAfter(old(index).drawn, shift))
    {
      ghost var rows;
      live, rows := MoveMarkers(live, shift, decoCache, nextHandle, index.drawn);
      index := index.(drawn := rows);
    }

    method OnResize()
      requires Valid()
      modifies this
      ensures Valid() && index == Cleared(old(index))
    {
      ClearAll();
    }

    method SetMatchers(count: nat)
      requires Valid()
      modifies this
      ensures Valid() && index == Cleared(old(index)).(matchers := count)
    {
      matchers := count;
      index := index.(matchers := count);
      ClearAll();
    }

    method SetSuspended(on: bool)
      requires Valid()
      modifies this
      ensures Valid()
      ensures index == if old(suspended) == on then old(index)
                       else if on then Cleared(old(index)).(suspended := true) else old(index).(suspended := false)
    {
      if suspended == on { return; }
      suspended := on;
      index := index.(suspended := on);
      if on { ClearAll(); }
    }

    /** Any event of the terminal or its owner; `b` is the buffer in force. */
    method Handle(e: Event, b: Buffer)
      requires Valid()
      modifies this
      ensures Valid() && index == IndexAfter(old(index), b, e)
    {
      match e
      case Change(_, shift) => OnRowsMoved(shift);
      case Resize(_) => OnResize();
      case ChangeMatchers(count, _) => SetMatchers(count);
      case Suspend(on) => SetSuspended(on);
      case Refresh => Refresh(b);
    }
  }

  /** A new addon that goes through the events of a run arrives at the index of that run. */
  method Replay(events: seq<Event>, matchers: nat, b: Buffer, ghost moments: seq<Moment>) returns (addon: ActionLinksAddon)
    requires IsRun(moments, events, matchers, b)
    ensures fresh(addon) && addon.Valid() && addon.index == moments[|events|].index
  {
    addon := new ActionLinksAddon(matchers);
    var now := b;
    for i := 0 to |events|
      invariant addon.Valid() && addon.index == moments[i].index && now == moments[i].buffer
    {
      addon.Handle(events[i], now);
      now := BufferAfter(now, events[i]);
    }
  }
}
