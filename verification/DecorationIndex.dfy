/**
 * The decoration layer of the action-links addon (src/lib/actionLinksAddon.ts) on values: an index of live decorations that is
 * brought up to date incrementally, with a memo of scrollback rows. A decoration hangs on a marker of the terminal, which follows
 * its row when rows are trimmed, inserted or deleted; the key it is filed under does not.
 */
module DecorationIndex {
  import opened Text

  const OVERSCAN_LINES: int := 120
  const MAX_LOGICAL_LINE_SCAN_CHARS: nat := 16 * 1024

  datatype Span = Span(col: int, width: int)

  /** The identity of a decoration: absolute line, first column, width. */
  datatype Key = Key(line: int, col: int, width: int)

  /**
   * What the addon learns about one buffer row: no logical line, or the logical line it belongs to: its number of characters,
   * its last row, and the column spans that its links cover on this row.
   */
  datatype Line = Unparsed | Parsed(chars: nat, endY: int, spans: seq<Span>)

  datatype Buffer = Buffer(lines: seq<Line>, baseY: int, viewportY: int, rows: int, alternate: bool)

  // ------------------------------------------------------------------ scanning from scratch

  function ScanStart(b: Buffer): int {
    if b.viewportY - OVERSCAN_LINES < 0 then 0 else b.viewportY - OVERSCAN_LINES
  }

  function ScanEnd(b: Buffer): int {
    var wanted := b.viewportY + b.rows - 1 + OVERSCAN_LINES;
    if wanted < |b.lines| - 1 then wanted else |b.lines| - 1
  }

  predicate InWindow(b: Buffer, y: int) { ScanStart(b) <= y <= ScanEnd(b) }

  function SpanKeys(y: int, spans: seq<Span>): (keys: seq<Key>)
    ensures forall k :: k in keys ==> k.line == y && k.width > 0
  {
    if spans == [] then []
    else if spans[0].width <= 0 then SpanKeys(y, spans[1..])
    else [Key(y, spans[0].col, spans[0].width)] + SpanKeys(y, spans[1..])
  }

  /** The decorations row `y` should carry, in span order. */
  function LineKeys(y: int, line: Line): (keys: seq<Key>)
    ensures forall k :: k in keys ==> k.line == y
  {
    if line.Parsed? && line.chars <= MAX_LOGICAL_LINE_SCAN_CHARS then SpanKeys(y, line.spans) else []
  }

  function Elements(keys: seq<Key>): set<Key> { set k | k in keys }

  function RowKeys(b: Buffer, y: int): (keys: set<Key>)
    ensures forall k :: k in keys ==> k.line == y
  {
    if 0 <= y < |b.lines| then Elements(LineKeys(y, b.lines[y])) else {}
  }

  /** A full rescan of the viewport and its overscan would create `k`. */
  predicate Wanted(b: Buffer, k: Key) { InWindow(b, k.line) && k in RowKeys(b, k.line) }

  function WantedKeys(b: Buffer): (keys: set<Key>)
    ensures forall k :: k in keys <==> Wanted(b, k)
  {
    set y, k | ScanStart(b) <= y <= ScanEnd(b) && k in RowKeys(b, y) :: k
  }

  /** The row's logical line lies wholly in the scrollback. */
  predicate Settled(b: Buffer, y: int) {
    && 0 <= y < |b.lines|
    && match b.lines[y]
       case Unparsed => y < b.baseY
       case Parsed(_, endY, _) => endY < b.baseY
  }

  // ------------------------------------------------------------------ rows that move

  /** Where a marker on a row ends up; `None` when the row is gone and the marker is disposed. */
  type Shift = int -> Option<int>

  function Stay(): Shift { y => Some(y) }

  function Then(f: Shift, g: Shift): Shift { y => if f(y).None? then None else g(f(y).value) }

  predicate SameLine(a: Line, b: Line) {
    (a.Unparsed? && b.Unparsed?) || (a.Parsed? && b.Parsed? && a.chars == b.chars && a.spans == b.spans)
  }

  /** What scrollback means: a settled row may move but is not rewritten. */
  ghost predicate Evolves(b: Buffer, c: Buffer, shift: Shift) {
    forall y :: Settled(b, y) && shift(y).Some? ==> Settled(c, shift(y).value) && SameLine(b.lines[y], c.lines[shift(y).value])
  }

  lemma EvolvesThen(a: Buffer, b: Buffer, c: Buffer, f: Shift, g: Shift)
    ensures Evolves(a, b, f) && Evolves(b, c, g) ==> Evolves(a, c, Then(f, g))
  {
  }

  // ------------------------------------------------------------------ the index

  /**
   * `drawn` gives the key of every live decoration the row its marker stands on, `memo` the keys remembered for every memoised row,
   * `sentinel` the row of the marker that reports trimmed scrollback, `trimmed` that it has reported.
   */
  datatype Index = Index(
    drawn: map<Key, int>, memo: map<int, set<Key>>, sentinel: Option<int>, trimmed: bool, suspended: bool, matchers: nat)

  predicate Off(v: Index) { v.suspended || v.matchers == 0 }

  function Cleared(v: Index): Index { v.(drawn := map[], memo := map[], sentinel := None, trimmed := false) }

  /** Disposing decorations runs their callbacks: a row that loses its last remembered key is no longer memoised. */
  function Disposed(v: Index, gone: set<Key>): Index {
    v.(drawn := v.drawn - gone,
       memo := map y | y in v.memo && (v.memo[y] == {} || v.memo[y] - gone != {}) :: v.memo[y] - gone)
  }

  function Lost(v: Index, shift: Shift): set<Key> { set k | k in v.drawn && shift(v.drawn[k]).None? }

  /** The terminal moves rows: markers follow, those on lost rows are disposed, the sentinel among them. */
  function Shifted(v: Index, shift: Shift): Index {
    var w := Disposed(v, Lost(v, shift));
    var hit := v.sentinel.Some? && shift(v.sentinel.value).None?;
    w.(drawn := map k | k in v.drawn && shift(v.drawn[k]).Some? :: shift(v.drawn[k]).value,
       sentinel := if v.sentinel.Some? then shift(v.sentinel.value) else None,
       trimmed := v.trimmed || hit)
  }

  /** What a refresh takes row `y` to need: the memo if there is one, else a scan of the row. */
  function Needs(v: Index, b: Buffer, y: int): set<Key> { if y in v.memo then v.memo[y] else RowKeys(b, y) }

  function Required(v: Index, b: Buffer): set<Key> {
    set y, k | ScanStart(b) <= y <= ScanEnd(b) && k in Needs(v, b, y) :: k
  }

  function MemoRows(v: Index, b: Buffer): set<int> {
    set y | ScanStart(b) <= y <= ScanEnd(b) && (y in v.memo || Settled(b, y))
  }

  /** Scan, evict, forget: kept decorations stay where their markers are, new ones are put on the row of their key. */
  function WindowRefreshed(v: Index, b: Buffer): Index {
    v.(drawn := map k | k in Required(v, b) :: if k in v.drawn then v.drawn[k] else k.line,
       memo := map y | y in MemoRows(v, b) :: Needs(v, b, y))
  }

  function Prepared(v: Index, b: Buffer): Index {
    var w := if v.trimmed then Cleared(v) else v;
    if w.sentinel.None? && |b.lines| > 0 then w.(sentinel := Some(0)) else w
  }

  /** `_refreshDecorations`. */
  function Refreshed(v: Index, b: Buffer): Index {
    if Off(v) then v
    else if b.alternate then Cleared(v)
    else WindowRefreshed(Prepared(v, b), b)
  }

  // ------------------------------------------------------------------ runs

  datatype Event =
    | Change(after: Buffer, shift: Shift)
    | Resize(after: Buffer)
    | ChangeMatchers(count: nat, after: Buffer)
    | Suspend(on: bool)
    | Refresh

  /** The buffer in force after an event; a change of matchers may change the spans of every row. */
  function BufferAfter(b: Buffer, e: Event): Buffer {
    match e
    case Change(after, _) => after
    case Resize(after) => after
    case ChangeMatchers(_, after) => after
    case Suspend(_) => b
    case Refresh => b
  }

  function IndexAfter(v: Index, b: Buffer, e: Event): Index {
    match e
    case Change(_, shift) => Shifted(v, shift)
    case Resize(_) => Cleared(v)
    case ChangeMatchers(count, _) => Cleared(v).(matchers := count)
    case Suspend(on) => if v.suspended == on then v else if on then Cleared(v).(suspended := true) else v.(suspended := false)
    case Refresh => Refreshed(v, b)
  }

  /** The live decorations are exactly those of a scan from scratch, and every one stands on the row its key names. */
  predicate Right(v: Index, b: Buffer) {
    if Off(v) || b.alternate then v.drawn == map[] else v.drawn == map k | k in WantedKeys(b) :: k.line
  }

  // ------------------------------------------------------------------ what decides whether a refresh is right

  /**
   * What an onlooker has to keep: the buffer of the last refresh since the last clear, the rows memoised then, the row of the
   * sentinel then, and how rows have moved since.
   */
  datatype Memory = Memory(at: Buffer, rows: set<int>, sentinel: Option<int>, moved: Shift)

  const BLANK := Buffer([], 0, 0, 0, false)

  function Nothing(): Memory { Memory(BLANK, {}, None, Stay()) }

  predicate TrimSeen(m: Memory) { m.sentinel.Some? && m.moved(m.sentinel.value).None? }

  /** Rows whose memo has survived: those without decorations, and those whose decorations are still there. */
  predicate StillMemoised(m: Memory, y: int) { y in m.rows && (RowKeys(m.at, y) == {} || m.moved(y).Some?) }

  /**
   * The exact condition, on the two buffers and the movement of rows between them: a decoration that is kept stands where it stood,
   * and a row remembered as having no decorations still needs none.
   */
  ghost predicate Undisturbed(m: Memory, b: Buffer) {
    && (forall k :: Wanted(m.at, k) && m.moved(k.line).Some? && (Wanted(b, k) || (k.line in m.rows && InWindow(b, k.line))) ==>
          m.moved(k.line) == Some(k.line))
    && (forall y :: y in m.rows && InWindow(b, y) && RowKeys(m.at, y) == {} ==> RowKeys(b, y) == {})
  }

  function AfterRefresh(m: Memory, b: Buffer): Memory {
    var base := if TrimSeen(m) then Nothing() else m;
    Memory(b, set y | ScanStart(b) <= y <= ScanEnd(b) && (StillMemoised(base, y) || Settled(b, y)),
           if base.sentinel.Some? then base.moved(base.sentinel.value) else if |b.lines| > 0 then Some(0) else None, Stay())
  }

  function MemoryAfter(m: Memory, off: bool, b: Buffer, e: Event): Memory {
    match e
    case Change(_, shift) => m.(moved := Then(m.moved, shift))
    case Resize(_) => Nothing()
    case ChangeMatchers(_, _) => Nothing()
    case Suspend(on) => if on then Nothing() else m
    case Refresh => if off then m else if b.alternate then Nothing() else AfterRefresh(m, b)
  }

  datatype Moment = Moment(index: Index, buffer: Buffer, memory: Memory)

  function Next(t: Moment, e: Event): Moment {
    Moment(IndexAfter(t.index, t.buffer, e), BufferAfter(t.buffer, e), MemoryAfter(t.memory, Off(t.index), t.buffer, e))
  }

  function NewIndex(matchers: nat): Index { Index(map[], map[], None, false, false, matchers) }

  ghost predicate IsRun(moments: seq<Moment>, events: seq<Event>, matchers: nat, b: Buffer) {
    && |moments| == |events| + 1 && moments[0] == Moment(NewIndex(matchers), b, Nothing())
    && forall i :: 0 <= i < |events| ==>
         && moments[i + 1] == Next(moments[i], events[i])
         && (events[i].Change? ==> Evolves(moments[i].buffer, events[i].after, events[i].shift))
  }

  /** A refresh that does something other than clear. */
  predicate Effective(t: Moment) { !Off(t.index) && !t.buffer.alternate && !TrimSeen(t.memory) }

  ghost predicate Condition(t: Moment) { Effective(t) ==> Undisturbed(t.memory, t.buffer) }
}
