/** What the user sees: the drawn decorations against the links of the buffer, on every run. */
module DecorationShown {
  import opened Text
  import opened DecorationIndex
  import opened DecorationRuns

  // ------------------------------------------------------------------ the window and its links, on the buffer alone

  /** The rows scanned are those of the viewport and up to 120 rows on either side of it. */
  lemma WindowIsViewportAndOverscan(b: Buffer, y: int)
    ensures 0 <= y < |b.lines| ==> (InWindow(b, y) <==> b.viewportY - 120 <= y < b.viewportY + b.rows + 120)
    ensures !(0 <= y < |b.lines|) ==> !InWindow(b, y)
  {
  }

  /** The key stands for a link span of its row, on a logical line short enough to be scanned, in or near the viewport. */
  predicate LinkAt(b: Buffer, k: Key) {
    && 0 <= k.line < |b.lines| && b.viewportY - 120 <= k.line < b.viewportY + b.rows + 120
    && var line := b.lines[k.line];
       line.Parsed? && line.chars <= 16384 && k.width > 0 && Span(k.col, k.width) in line.spans
  }

  /** The row belongs to a logical line that lies wholly above the live screen. */
  predicate InScrollback(b: Buffer, y: int) {
    && 0 <= y < |b.lines|
    && if b.lines[y].Unparsed? then y < b.baseY else b.lines[y].endY < b.baseY
  }

  lemma {:induction false} SpanKeysHold(y: int, spans: seq<Span>, k: Key)
    ensures k in SpanKeys(y, spans) <==> k.line == y && k.width > 0 && Span(k.col, k.width) in spans
  {
    if spans != [] {
      SpanKeysHold(y, spans[1..], k);
      assert spans == [spans[0]] + spans[1..];
    }
  }

  /** A rescan creates exactly the decorations of the links. */
  lemma WantedIffLinkAt(b: Buffer, k: Key)
    ensures Wanted(b, k) <==> LinkAt(b, k)
  {
    WindowIsViewportAndOverscan(b, k.line);
    if 0 <= k.line < |b.lines| && b.lines[k.line].Parsed? {
      SpanKeysHold(k.line, b.lines[k.line].spans, k);
    }
  }

  // ------------------------------------------------------------------ what is drawn

  /** Every link is underlined on its row, and nothing else is underlined. */
  ghost predicate ShowsLinks(drawn: map<Key, int>, b: Buffer) {
    forall k :: if LinkAt(b, k) then k in drawn && drawn[k] == k.line else k !in drawn
  }

  /** Suspended, without matchers or on the alternate screen nothing is drawn; otherwise the links are. */
  ghost predicate ShowsWhatItShould(v: Index, b: Buffer) {
    if v.suspended || v.matchers == 0 || b.alternate then v.drawn == map[] else ShowsLinks(v.drawn, b)
  }

  lemma DrawnIffShows(drawn: map<Key, int>, keys: set<Key>, b: Buffer)
    requires forall k :: k in keys <==> LinkAt(b, k)
    ensures drawn == (map k | k in keys :: k.line) <==> ShowsLinks(drawn, b)
  {
    if ShowsLinks(drawn, b) {
      forall k ensures k in drawn <==> k in keys {
        assert LinkAt(b, k) <==> k in drawn;
      }
    }
  }

  lemma RightIffShows(v: Index, b: Buffer)
    ensures Right(v, b) <==> ShowsWhatItShould(v, b)
  {
    var keys := WantedKeys(b);
    forall k ensures k in keys <==> LinkAt(b, k) {
      WantedIffLinkAt(b, k);
    }
    DrawnIffShows(v.drawn, keys, b);
  }

  ghost predicate ShowsUpTo(moments: seq<Moment>, events: seq<Event>, n: nat)
    requires n <= |events| < |moments|
  {
    forall i :: 0 <= i < n && events[i].Refresh? ==> ShowsWhatItShould(moments[i + 1].index, moments[i].buffer)
  }

  /**
   * On every run: all refreshes leave every link of the viewport and its surroundings underlined on its row and nothing else, if and
   * only if no refresh finds the rows it builds on disturbed.
   */
  lemma LinksAreShownIffUndisturbed(moments: seq<Moment>, events: seq<Event>, matchers: nat, b: Buffer)
    requires IsRun(moments, events, matchers, b)
    ensures ShowsUpTo(moments, events, |events|) <==> ConditionUpTo(moments, events, |events|)
  {
    RefreshesAreRightIffUndisturbed(moments, events, matchers, b);
    forall i | 0 <= i < |events| && events[i].Refresh?
      ensures Right(moments[i + 1].index, moments[i].buffer) <==> ShowsWhatItShould(moments[i + 1].index, moments[i].buffer)
    {
      RightIffShows(moments[i + 1].index, moments[i].buffer);
    }
  }

  /** After a right refresh of a terminal that shows links, every link span of the viewport is drawn on its row. */
  lemma ViewportLinksAreDrawn(
    moments: seq<Moment>, events: seq<Event>, matchers: nat, b: Buffer, i: nat, y: nat, j: nat)
    requires IsRun(moments, events, matchers, b) && i < |events| && events[i].Refresh?
    requires Right(moments[i + 1].index, moments[i].buffer)
    requires !moments[i].index.suspended && moments[i].index.matchers > 0 && !moments[i].buffer.alternate
    requires y < |moments[i].buffer.lines| && moments[i].buffer.lines[y].Parsed? && moments[i].buffer.lines[y].chars <= 16384
    requires moments[i].buffer.viewportY <= y < moments[i].buffer.viewportY + moments[i].buffer.rows
    requires j < |moments[i].buffer.lines[y].spans| && moments[i].buffer.lines[y].spans[j].width > 0
    ensures var span := moments[i].buffer.lines[y].spans[j];
            var drawn := moments[i + 1].index.drawn;
            Key(y, span.col, span.width) in drawn && drawn[Key(y, span.col, span.width)] == y
  {
    var span := moments[i].buffer.lines[y].spans[j];
    assert Span(span.col, span.width) in moments[i].buffer.lines[y].spans;
    RightIffShows(moments[i + 1].index, moments[i].buffer);
    RefreshKeepsSettings(moments[i].index, moments[i].buffer);
    assert LinkAt(moments[i].buffer, Key(y, span.col, span.width));
  }

  lemma RefreshKeepsSettings(v: Index, b: Buffer)
    ensures Refreshed(v, b).suspended == v.suspended && Refreshed(v, b).matchers == v.matchers
  {
  }

  /** Output that moves no row except by trimming: every refresh shows the links, whatever else happens in between. */
  lemma PlainOutputShowsLinks(moments: seq<Moment>, events: seq<Event>, matchers: nat, b: Buffer)
    requires IsRun(moments, events, matchers, b)
    requires forall i :: 0 <= i < |events| && events[i].Change? ==> PlainChange(events[i].shift)
    ensures ShowsUpTo(moments, events, |events|)
  {
    PlainOutputIsRight(moments, events, matchers, b);
    RefreshesAreRightIffUndisturbed(moments, events, matchers, b);
    LinksAreShownIffUndisturbed(moments, events, matchers, b);
  }

  // ------------------------------------------------------------------ at any moment, refreshed or not

  /** While the addon is suspended or has no matchers, nothing is drawn at any moment of any run. */
  lemma {:induction false} OffShowsNothing(moments: seq<Moment>, events: seq<Event>, matchers: nat, b: Buffer, n: nat)
    requires IsRun(moments, events, matchers, b) && n < |moments|
    ensures moments[n].index.suspended || moments[n].index.matchers == 0 ==> moments[n].index.drawn == map[]
  {
    if n > 0 {
      OffShowsNothing(moments, events, matchers, b, n - 1);
      OffStaysEmpty(moments[n - 1].index, moments[n - 1].buffer, events[n - 1]);
    }
  }

  lemma OffStaysEmpty(v: Index, b: Buffer, e: Event)
    requires v.suspended || v.matchers == 0 ==> v.drawn == map[]
    ensures var w := IndexAfter(v, b, e); w.suspended || w.matchers == 0 ==> w.drawn == map[]
  {
    if e.Refresh? { RefreshKeepsSettings(v, b); }
  }

  // ------------------------------------------------------------------ the memo

  lemma SettledIffInScrollback(b: Buffer, y: int)
    ensures Settled(b, y) <==> InScrollback(b, y)
  {
  }

  /** With output that moves no row except by trimming, the rows remembered are the settled ones of the window. */
  lemma SteadyRows(m: Memory, b: Buffer, y: int)
    requires Sound(m, b) && Steady(m)
    ensures y in AfterRefresh(m, b).rows <==> InWindow(b, y) && Settled(b, y)
  {
    if !TrimSeen(m) && StillMemoised(m, y) {
      assert Settled(m.at, y) && m.moved(y) == Some(y);
    }
  }

  lemma RefreshedMemoIs(m: Memory, b: Buffer, y: int)
    ensures var now := AfterRefresh(m, b); y in MemoOf(now) <==> y in now.rows
    ensures var now := AfterRefresh(m, b); y in now.rows ==> MemoOf(now)[y] == RowKeys(b, y)
  {
  }

  /** A refresh remembers exactly the scrollback rows of its window, each with exactly its links. */
  ghost predicate RemembersScrollback(memo: map<int, set<Key>>, b: Buffer) {
    && (forall y :: y in memo <==> InScrollback(b, y) && b.viewportY - 120 <= y < b.viewportY + b.rows + 120)
    && (forall y, k :: y in memo ==> (k in memo[y] <==> LinkAt(b, k) && k.line == y))
  }

  lemma PlainOutputRemembersScrollback(moments: seq<Moment>, events: seq<Event>, matchers: nat, b: Buffer, i: nat)
    requires IsRun(moments, events, matchers, b) && i < |events| && events[i].Refresh?
    requires forall j :: 0 <= j < |events| && events[j].Change? ==> PlainChange(events[j].shift)
    requires !moments[i].index.suspended && moments[i].index.matchers > 0 && !moments[i].buffer.alternate
    ensures RemembersScrollback(moments[i + 1].index.memo, moments[i].buffer)
  {
    PlainRunIsSteady(moments, events, matchers, b, i);
    PlainRunIsSteady(moments, events, matchers, b, i + 1);
    var m, at := moments[i].memory, moments[i].buffer;
    var memo := moments[i + 1].index.memo;
    assert memo == MemoOf(AfterRefresh(m, at));
    forall y
      ensures y in memo <==> InScrollback(at, y) && at.viewportY - 120 <= y < at.viewportY + at.rows + 120
      ensures y in memo ==> memo[y] == RowKeys(at, y)
    {
      SteadyRows(m, at, y);
      RefreshedMemoIs(m, at, y);
      WindowIsViewportAndOverscan(at, y);
      SettledIffInScrollback(at, y);
    }
    forall y, k | y in memo ensures k in memo[y] <==> LinkAt(at, k) && k.line == y {
      WindowIsViewportAndOverscan(at, y);
      WantedIffLinkAt(at, k);
    }
  }
}
