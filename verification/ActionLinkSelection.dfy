/** Which matches of a line become links, and which columns they cover (src/lib/actionLinksAddon.ts). */
module ActionLinkSelection {
  import opened Text

  // ------------------------------------------------------------------ matchers and actions

  /** An action definition evaluated in its context: its `when` test and the command it builds ("" for none). */
  datatype Definition = Definition(id: nat, enabled: bool, command: string)

  datatype Match = Match(startIndex: int, endIndex: int, definitions: seq<Definition>)

  /** A matcher evaluated on one text: whether its prefilter lets it run, and the matches it reports. */
  datatype Matcher = Matcher(priority: int, applies: bool, matches: seq<Match>)

  /** `resolveActions`: enabled definitions that build a command, in order. */
  function Resolved(defs: seq<Definition>): seq<Definition> {
    if defs == [] then []
    else if defs[0].enabled && defs[0].command != "" then [defs[0]] + Resolved(defs[1..])
    else Resolved(defs[1..])
  }

  /** Exactly the enabled definitions that build a command are resolved, as often as they are given. */
  lemma {:induction false} ResolvedHolds(defs: seq<Definition>, d: Definition)
    ensures multiset(Resolved(defs))[d] == if d.enabled && d.command != "" then multiset(defs)[d] else 0
  {
    if defs != [] {
      ResolvedHolds(defs[1..], d);
      assert defs == [defs[0]] + defs[1..];
    }
  }

  predicate HasAction(m: Match) { exists d :: d in m.definitions && d.enabled && d.command != "" }

  lemma ResolvesIffHasAction(m: Match)
    ensures Resolved(m.definitions) != [] <==> HasAction(m)
  {
    var resolved := Resolved(m.definitions);
    if resolved != [] {
      ResolvedHolds(m.definitions, resolved[0]);
      assert resolved[0] in multiset(resolved);
    }
    if d :| d in m.definitions && d.enabled && d.command != "" {
      ResolvedHolds(m.definitions, d);
      assert d in multiset(m.definitions);
    }
  }

  // ------------------------------------------------------------------ stable sort by descending priority

  function Insert(sorted: seq<Matcher>, m: Matcher): seq<Matcher> {
    if sorted == [] || sorted[|sorted| - 1].priority >= m.priority then sorted + [m]
    else Insert(sorted[..|sorted| - 1], m) + [sorted[|sorted| - 1]]
  }

  function ByPriority(matchers: seq<Matcher>): seq<Matcher> {
    if matchers == [] then [] else Insert(ByPriority(matchers[..|matchers| - 1]), matchers[|matchers| - 1])
  }

  predicate Descending(matchers: seq<Matcher>) {
    forall i, j :: 0 <= i < j < |matchers| ==> matchers[i].priority >= matchers[j].priority
  }

  lemma {:induction false} InsertKeepsElements(sorted: seq<Matcher>, m: Matcher)
    ensures multiset(Insert(sorted, m)) == multiset(sorted) + multiset{m}
  {
    if !(sorted == [] || sorted[|sorted| - 1].priority >= m.priority) {
      InsertKeepsElements(sorted[..|sorted| - 1], m);
      assert sorted == sorted[..|sorted| - 1] + [sorted[|sorted| - 1]];
    }
  }

  ghost predicate AllAtLeast(matchers: seq<Matcher>, priority: int) {
    forall i :: 0 <= i < |matchers| ==> matchers[i].priority >= priority
  }

  lemma {:induction false} InsertStaysAbove(sorted: seq<Matcher>, m: Matcher, priority: int)
    requires AllAtLeast(sorted, priority) && m.priority >= priority
    ensures AllAtLeast(Insert(sorted, m), priority)
  {
    if !(sorted == [] || sorted[|sorted| - 1].priority >= m.priority) {
      InsertStaysAbove(sorted[..|sorted| - 1], m, priority);
    }
  }

  lemma AppendDescends(matchers: seq<Matcher>, last: Matcher)
    requires Descending(matchers) && AllAtLeast(matchers, last.priority)
    ensures Descending(matchers + [last])
  {
  }

  lemma {:induction false} InsertKeepsOrder(sorted: seq<Matcher>, m: Matcher)
    requires Descending(sorted)
    ensures Descending(Insert(sorted, m))
  {
    if sorted == [] || sorted[|sorted| - 1].priority >= m.priority {
      AppendDescends(sorted, m);
    } else {
      var before, last := sorted[..|sorted| - 1], sorted[|sorted| - 1];
      InsertKeepsOrder(before, m);
      InsertStaysAbove(before, m, last.priority);
      AppendDescends(Insert(before, m), last);
    }
  }

  lemma {:induction false} ByPriorityDescends(matchers: seq<Matcher>)
    ensures Descending(ByPriority(matchers))
  {
    if matchers != [] {
      ByPriorityDescends(matchers[..|matchers| - 1]);
      InsertKeepsOrder(ByPriority(matchers[..|matchers| - 1]), matchers[|matchers| - 1]);
    }
  }

  lemma {:induction false} ByPriorityKeepsElements(matchers: seq<Matcher>)
    ensures multiset(ByPriority(matchers)) == multiset(matchers)
  {
    if matchers != [] {
      var before, last := matchers[..|matchers| - 1], matchers[|matchers| - 1];
      ByPriorityKeepsElements(before);
      InsertKeepsElements(ByPriority(before), last);
      assert matchers == before + [last];
    }
  }

  lemma ByPriorityIsDescending(matchers: seq<Matcher>)
    ensures Descending(ByPriority(matchers)) && multiset(ByPriority(matchers)) == multiset(matchers)
  {
    ByPriorityDescends(matchers);
    ByPriorityKeepsElements(matchers);
  }

  function OfPriority(matchers: seq<Matcher>, priority: int): seq<Matcher> {
    if matchers == [] then []
    else
      var last := matchers[|matchers| - 1];
      OfPriority(matchers[..|matchers| - 1], priority) + if last.priority == priority then [last] else []
  }

  lemma OfPriorityAppend(matchers: seq<Matcher>, last: Matcher, priority: int)
    ensures OfPriority(matchers + [last], priority) == OfPriority(matchers, priority) + if last.priority == priority then [last] else []
  {
    assert (matchers + [last])[..|matchers|] == matchers;
  }

  lemma {:induction false} InsertIsStable(sorted: seq<Matcher>, m: Matcher, priority: int)
    ensures OfPriority(Insert(sorted, m), priority) == OfPriority(sorted, priority) + if m.priority == priority then [m] else []
  {
    if sorted == [] || sorted[|sorted| - 1].priority >= m.priority {
      OfPriorityAppend(sorted, m, priority);
    } else {
      var before, last := sorted[..|sorted| - 1], sorted[|sorted| - 1];
      InsertIsStable(before, m, priority);
      OfPriorityAppend(Insert(before, m), last, priority);
      var a := if m.priority == priority then [m] else [];
      var b := if last.priority == priority then [last] else [];
      SwapWithEmpty(OfPriority(before, priority), a, b);
    }
  }

  lemma SwapWithEmpty<T>(s: seq<T>, a: seq<T>, b: seq<T>)
    requires a == [] || b == []
    ensures s + a + b == s + b + a
  {
  }

  /** Matchers of equal priority keep their order, so which of them claims text first is settled by the list. */
  lemma {:induction false} ByPriorityIsStable(matchers: seq<Matcher>, priority: int)
    ensures OfPriority(ByPriority(matchers), priority) == OfPriority(matchers, priority)
  {
    if matchers != [] {
      var before := matchers[..|matchers| - 1];
      ByPriorityIsStable(before, priority);
      InsertIsStable(ByPriority(before), matchers[|matchers| - 1], priority);
    }
  }

  // ------------------------------------------------------------------ greedy selection

  /** A match together with the priority of the matcher that reported it. */
  datatype Candidate = Candidate(found: Match, priority: int)

  function Tagged(matches: seq<Match>, priority: int): seq<Candidate> {
    seq(|matches|, i requires 0 <= i < |matches| => Candidate(matches[i], priority))
  }

  /** Every match that is looked at, in the order it is looked at. */
  function ScanOrder(matchers: seq<Matcher>): seq<Candidate> {
    if matchers == [] then []
    else
      var last := matchers[|matchers| - 1];
      ScanOrder(matchers[..|matchers| - 1]) + (if last.applies then Tagged(last.matches, last.priority) else [])
  }

  predicate Overlaps(a: Match, b: Match) {
    b.startIndex < a.endIndex && b.endIndex > a.startIndex
  }

  /** Match `i` claims its interval when no earlier claim overlaps it. */
  predicate Claims(order: seq<Candidate>, i: nat)
    requires i < |order|
    decreases i
  {
    forall j: nat | j < i :: Claims(order, j) ==> !Overlaps(order[j].found, order[i].found)
  }

  predicate Chosen(order: seq<Candidate>, i: nat)
    requires i < |order|
  {
    Claims(order, i) && Resolved(order[i].found.definitions) != []
  }

  /** The links of the first `n` matches: those that claim an interval and have an action left. */
  function Links(order: seq<Candidate>, n: nat): seq<Match>
    requires n <= |order|
  {
    if n == 0 then []
    else if Chosen(order, n - 1) then Links(order, n - 1) + [order[n - 1].found]
    else Links(order, n - 1)
  }

  function ClaimedIntervals(order: seq<Candidate>, n: nat): seq<Match>
    requires n <= |order|
  {
    if n == 0 then []
    else if Claims(order, n - 1) then ClaimedIntervals(order, n - 1) + [order[n - 1].found]
    else ClaimedIntervals(order, n - 1)
  }

  lemma {:induction false} ClaimedIntervalsAreClaims(order: seq<Candidate>, n: nat, m: Match)
    requires n <= |order|
    ensures m in ClaimedIntervals(order, n) <==> exists j :: 0 <= j < n && Claims(order, j) && order[j].found == m
  {
    if n > 0 {
      ClaimedIntervalsAreClaims(order, n - 1, m);
      if m in ClaimedIntervals(order, n - 1) {
        var j :| 0 <= j < n - 1 && Claims(order, j) && order[j].found == m;
        assert 0 <= j < n;
      }
      if Claims(order, n - 1) && order[n - 1].found == m {
        assert 0 <= n - 1 < n;
      }
    }
  }

  /** The test against the list of claimed intervals decides exactly `Claims`. */
  lemma CoveredTestDecidesClaims(order: seq<Candidate>, n: nat)
    requires n < |order|
    ensures Claims(order, n)
       <==> forall c :: c in ClaimedIntervals(order, n) ==> !Overlaps(c, order[n].found)
  {
    if Claims(order, n) {
      forall c | c in ClaimedIntervals(order, n) ensures !Overlaps(c, order[n].found) {
        ClaimedIntervalsAreClaims(order, n, c);
      }
    }
    if forall c :: c in ClaimedIntervals(order, n) ==> !Overlaps(c, order[n].found) {
      forall j: nat | j < n && Claims(order, j) ensures !Overlaps(order[j].found, order[n].found) {
        ClaimedIntervalsAreClaims(order, n, order[j].found);
      }
    }
  }

  lemma {:induction false} ScanOrderPrefix(matchers: seq<Matcher>, n: nat)
    requires n <= |matchers|
    ensures ScanOrder(matchers[..n]) <= ScanOrder(matchers)
  {
    if n < |matchers| {
      ScanOrderPrefix(matchers[..|matchers| - 1], n);
      assert matchers[..|matchers| - 1][..n] == matchers[..n];
    } else {
      assert matchers[..n] == matchers;
    }
  }

  /** The inner loop: the matches of one matcher, the first of which is number `base` in scan order. */
  method ClaimMatches(matches: seq<Match>, covered: seq<Match>, results: seq<Match>, ghost order: seq<Candidate>, ghost base: nat)
    returns (c: seq<Match>, r: seq<Match>)
    requires base + |matches| <= |order| && forall k :: 0 <= k < |matches| ==> order[base + k].found == matches[k]
    requires covered == ClaimedIntervals(order, base) && results == Links(order, base)
    ensures c == ClaimedIntervals(order, base + |matches|) && r == Links(order, base + |matches|)
  {
    c, r := covered, results;
    for k := 0 to |matches|
      invariant c == ClaimedIntervals(order, base + k) && r == Links(order, base + k)
    {
      var m := matches[k];
      CoveredTestDecidesClaims(order, base + k);
      if forall x :: x in c ==> !Overlaps(x, m) {
        c := c + [m];
        if Resolved(m.definitions) != [] {
          r := r + [m];
        }
      }
    }
  }

  /** Where the matches of matcher `i` stand in scan order. */
  lemma ScanOrderStep(sorted: seq<Matcher>, i: nat, order: seq<Candidate>, n: nat)
    requires i < |sorted| && order == ScanOrder(sorted) && n == |ScanOrder(sorted[..i])|
    ensures var m := sorted[i];
            && |ScanOrder(sorted[..i + 1])| == n + (if m.applies then |m.matches| else 0) <= |order|
            && (m.applies ==> forall k :: 0 <= k < |m.matches| ==> order[n + k].found == m.matches[k])
  {
    ScanOrderPrefix(sorted, i + 1);
    var now := ScanOrder(sorted[..i + 1]);
    assert sorted[..i + 1][..i] == sorted[..i];
    assert forall k :: 0 <= k < |now| ==> order[k] == now[k];
  }

  /** `_computeActionLinks`: the nested loops over sorted matchers and their matches. */
  method ComputeActionLinks(matchers: seq<Matcher>) returns (results: seq<Match>)
    ensures results == LinksOf(matchers)
  {
    results := LinksOfSorted(ByPriority(matchers));
  }

  method LinksOfSorted(sorted: seq<Matcher>) returns (results: seq<Match>)
    ensures results == Links(ScanOrder(sorted), |ScanOrder(sorted)|)
  {
    ghost var order, n := ScanOrder(sorted), 0;
    results := [];
    var covered: seq<Match> := [];
    for i := 0 to |sorted|
      invariant n == |ScanOrder(sorted[..i])| <= |order|
      invariant covered == ClaimedIntervals(order, n) && results == Links(order, n)
    {
      ScanOrderStep(sorted, i, order, n);
      if sorted[i].applies {
        covered, results := ClaimMatches(sorted[i].matches, covered, results, order, n);
        n := n + |sorted[i].matches|;
      }
    }
    assert sorted[..|sorted|] == sorted;
  }

  // ------------------------------------------------------------------ properties of the selection

  lemma {:induction false} LinksAreChosen(order: seq<Candidate>, n: nat, k: nat) returns (i: nat)
    requires n <= |order| && k < |Links(order, n)|
    ensures i < n && Chosen(order, i) && order[i].found == Links(order, n)[k]
    ensures k == |Links(order, i)|
  {
    if k == |Links(order, n - 1)| {
      i := n - 1;
    } else {
      i := LinksAreChosen(order, n - 1, k);
    }
  }

  predicate Disjoint(a: Match, b: Match) { a.endIndex <= b.startIndex || b.endIndex <= a.startIndex }

  lemma TwoLinksAreDisjoint(order: seq<Candidate>, a: nat, b: nat)
    ensures a < b < |Links(order, |order|)| ==> Disjoint(Links(order, |order|)[a], Links(order, |order|)[b])
  {
    if a < b < |Links(order, |order|)| {
      var i := LinksAreChosen(order, |order|, a);
      var j := LinksAreChosen(order, |order|, b);
      if j <= i {
        LinksGrow(order, j, i);
      }
      assert !Overlaps(order[i].found, order[j].found);
    }
  }

  /** The links of a line, in the order they are found. */
  function LinksOf(matchers: seq<Matcher>): seq<Match> {
    var order := ScanOrder(ByPriority(matchers));
    Links(order, |order|)
  }

  /** Chosen links never share a character: of any two, one ends before the other starts. */
  lemma LinksArePairwiseDisjoint(matchers: seq<Matcher>)
    ensures var links := LinksOf(matchers); forall a, b :: 0 <= a < b < |links| ==> Disjoint(links[a], links[b])
  {
    var links := LinksOf(matchers);
    forall a, b | 0 <= a < b < |links| ensures Disjoint(links[a], links[b]) {
      TwoLinksAreDisjoint(ScanOrder(ByPriority(matchers)), a, b);
    }
  }

  lemma {:induction false} LinksGrow(order: seq<Candidate>, m: nat, n: nat)
    requires m <= n <= |order|
    ensures |Links(order, m)| <= |Links(order, n)|
  {
    if m < n {
      LinksGrow(order, m, n - 1);
    }
  }

  lemma {:induction false} ScanOrderComesFrom(matchers: seq<Matcher>, i: nat) returns (k: nat)
    requires i < |ScanOrder(matchers)|
    ensures k < |matchers| && matchers[k].priority == ScanOrder(matchers)[i].priority
    ensures forall i' :: i < i' < |ScanOrder(matchers)| ==>
              exists k' :: k <= k' < |matchers| && matchers[k'].priority == ScanOrder(matchers)[i'].priority
  {
    var before := matchers[..|matchers| - 1];
    var order := ScanOrder(matchers);
    var head := |ScanOrder(before)|;
    forall i' | head <= i' < |order| ensures order[i'].priority == matchers[|matchers| - 1].priority {
    }
    if i < head {
      k := ScanOrderComesFrom(before, i);
      forall i' | i < i' < |order|
        ensures exists k' :: k <= k' < |matchers| && matchers[k'].priority == order[i'].priority
      {
        if i' < head {
          var k' :| k <= k' < |before| && before[k'].priority == ScanOrder(before)[i'].priority;
          assert matchers[k'].priority == order[i'].priority;
        } else {
          assert matchers[|matchers| - 1].priority == order[i'].priority;
        }
      }
    } else {
      k := |matchers| - 1;
    }
  }

  lemma ScanOrderDescends(matchers: seq<Matcher>, i: nat, j: nat)
    requires Descending(matchers) && i < j < |ScanOrder(matchers)|
    ensures ScanOrder(matchers)[i].priority >= ScanOrder(matchers)[j].priority
  {
    var k := ScanOrderComesFrom(matchers, i);
    var k' :| k <= k' < |matchers| && matchers[k'].priority == ScanOrder(matchers)[j].priority;
  }

  /** Every match of every matcher whose prefilter lets it run is looked at, and nothing else is. */
  lemma {:induction false} ScanOrderHolds(matchers: seq<Matcher>, c: Candidate)
    ensures c in ScanOrder(matchers)
       <==> exists k :: 0 <= k < |matchers| && matchers[k].applies && c.priority == matchers[k].priority && c.found in matchers[k].matches
  {
    if matchers != [] {
      var n := |matchers| - 1;
      var before, last := matchers[..n], matchers[n];
      ScanOrderHolds(before, c);
      assert c in Tagged(last.matches, last.priority) <==> c.priority == last.priority && c.found in last.matches by {
        if i :| 0 <= i < |last.matches| && last.matches[i] == c.found {
          assert c.priority == last.priority ==> Tagged(last.matches, last.priority)[i] == c;
        }
      }
      if k :| 0 <= k < n && before[k].applies && c.priority == before[k].priority && c.found in before[k].matches {
        assert matchers[k] == before[k];
      }
      if k :| 0 <= k < |matchers| && matchers[k].applies && c.priority == matchers[k].priority && c.found in matchers[k].matches {
        assert k < n ==> before[k] == matchers[k];
      }
    }
  }

  /**
   * A match is left out if and only if none of its actions is enabled with a command, or it overlaps an interval claimed earlier,
   * and whatever claimed that interval has equal or higher priority.
   */
  lemma LeftOutForAReason(matchers: seq<Matcher>, i: nat)
    requires i < |ScanOrder(ByPriority(matchers))|
    ensures var order := ScanOrder(ByPriority(matchers));
            !Chosen(order, i)
            <==> || !HasAction(order[i].found)
                 || exists j :: 0 <= j < i && Claims(order, j) && order[j].priority >= order[i].priority
                                && order[i].found.startIndex < order[j].found.endIndex
                                && order[i].found.endIndex > order[j].found.startIndex
  {
    ByPriorityIsDescending(matchers);
    ResolvesIffHasAction(ScanOrder(ByPriority(matchers))[i].found);
    var order := ScanOrder(ByPriority(matchers));
    forall j | 0 <= j < i ensures order[j].priority >= order[i].priority {
      ScanOrderDescends(ByPriority(matchers), j, i);
    }
  }

  // ------------------------------------------------------------------ string index to column

  /** One buffer cell: its number of UTF-16 units (0 for an empty cell) and its width (0 after a wide cell). */
  datatype Cell = Cell(units: nat, width: nat)

  /** A cell the walk stops at: its column, the string units it stands for, and the column after it. */
  datatype Visit = Visit(col: nat, units: nat, end: nat)

  function VisitAt(row: seq<Cell>, col: nat): Visit
    requires col < |row|
  {
    var cell := row[col];
    Visit(col, if cell.units == 0 then 1 else cell.units, col + if cell.width == 0 then 1 else cell.width)
  }

  /** The cells visited from `col` on: wide cells are stepped over as a whole. */
  function Visits(row: seq<Cell>, col: nat, maxCols: nat): seq<Visit>
    decreases |row| - col
  {
    if col < maxCols && col < |row| then [VisitAt(row, col)] + Visits(row, VisitAt(row, col).end, maxCols) else []
  }

  function Repeat(col: nat, times: nat): seq<int> { seq(times, _ => col) }

  function Columns(visits: seq<Visit>): seq<int> {
    if visits == [] then [] else Repeat(visits[0].col, visits[0].units) + Columns(visits[1..])
  }

  function EndColumn(visits: seq<Visit>): nat {
    if visits == [] then 0 else visits[|visits| - 1].end
  }

  /** The visits needed to account for `length` string units, or all of them. */
  function Needed(visits: seq<Visit>, length: int): seq<Visit> {
    if visits == [] || length <= 0 then [] else [visits[0]] + Needed(visits[1..], length - visits[0].units)
  }

  /** The column of every string unit, and after them the column where the text ends. */
  function CellMap(visits: seq<Visit>): seq<int> {
    Columns(visits) + [EndColumn(visits)]
  }

  method BuildStringToCellMap(row: seq<Cell>, stringLength: nat, maxCols: nat) returns (columns: seq<int>)
    ensures columns == CellMap(Needed(Visits(row, 0, maxCols), stringLength))
  {
    columns := [];
    var col := 0;
    var cellEndCol := 0;
    ghost var done: seq<Visit> := [];
    ghost var rest := Needed(Visits(row, 0, maxCols), stringLength);
    ghost var all := rest;
    while col < maxCols && |columns| < stringLength && col < |row|
      invariant columns == Columns(done) && cellEndCol == EndColumn(done) && all == done + rest
      invariant rest == Needed(Visits(row, col, maxCols), stringLength - |columns|)
      decreases |row| - col
    {
      ghost var v := VisitAt(row, col);
      ghost var next := Needed(Visits(row, v.end, maxCols), stringLength - |columns| - v.units);
      NeededStep(row, col, maxCols, stringLength - |columns|);
      MoveOver(all, done, rest, v, next);
      ColumnsAppend(done, v);
      done, rest := done + [v], next;
      columns := PushUnits(columns, row[col].units, col);
      cellEndCol := col + if row[col].width == 0 then 1 else row[col].width;
      col := cellEndCol;
    }
    assert rest == [] && all == done;
    columns := columns + [cellEndCol];
  }

  lemma MoveOver(all: seq<Visit>, done: seq<Visit>, rest: seq<Visit>, v: Visit, next: seq<Visit>)
    requires all == done + rest && rest == [v] + next
    ensures all == done + [v] + next
  {
  }

  /** The inner loop: one entry per UTF-16 unit of the cell, a single one for an empty cell. */
  method PushUnits(columns: seq<int>, units: nat, col: nat) returns (r: seq<int>)
    ensures r == columns + Repeat(col, if units == 0 then 1 else units)
  {
    r := columns;
    if units == 0 {
      r := r + [col];
    } else {
      for i := 0 to units
        invariant r == columns + Repeat(col, i)
      {
        r := r + [col];
      }
    }
  }

  lemma NeededCons(v: Visit, rest: seq<Visit>, length: int)
    requires length > 0
    ensures Needed([v] + rest, length) == [v] + Needed(rest, length - v.units)
  {
    assert ([v] + rest)[1..] == rest;
  }

  lemma NeededStep(row: seq<Cell>, col: nat, maxCols: nat, length: int)
    requires col < maxCols && col < |row| && length > 0
    ensures var v := VisitAt(row, col);
            Needed(Visits(row, col, maxCols), length) == [v] + Needed(Visits(row, v.end, maxCols), length - v.units)
  {
    NeededCons(VisitAt(row, col), Visits(row, VisitAt(row, col).end, maxCols), length);
  }

  lemma {:induction false} ColumnsAppend(visits: seq<Visit>, v: Visit)
    ensures Columns(visits + [v]) == Columns(visits) + Repeat(v.col, v.units)
  {
    if visits == [] {
      assert [v][1..] == [];
      assert [] + [v] == [v];
    } else {
      ColumnsAppend(visits[1..], v);
      assert (visits + [v])[1..] == visits[1..] + [v];
    }
  }

  predicate Consecutive(visits: seq<Visit>) {
    && (forall i :: 0 <= i < |visits| ==> visits[i].units > 0 && visits[i].col < visits[i].end)
    && (forall i :: 0 < i < |visits| ==> visits[i - 1].end == visits[i].col)
  }

  lemma {:induction false} VisitsAreConsecutive(row: seq<Cell>, col: nat, maxCols: nat)
    ensures Consecutive(Visits(row, col, maxCols))
    ensures Visits(row, col, maxCols) != [] ==> Visits(row, col, maxCols)[0].col == col
    decreases |row| - col
  {
    if col < maxCols && col < |row| {
      VisitsAreConsecutive(row, VisitAt(row, col).end, maxCols);
    }
  }

  lemma {:induction false} NeededIsPrefix(visits: seq<Visit>, length: int)
    ensures Needed(visits, length) <= visits
  {
    if visits != [] && length > 0 {
      NeededIsPrefix(visits[1..], length - visits[0].units);
      assert visits == [visits[0]] + visits[1..];
    }
  }

  predicate NonDecreasing(s: seq<int>) {
    forall i, j :: 0 <= i <= j < |s| ==> s[i] <= s[j]
  }

  lemma {:induction false} CellMapNonDecreasing(visits: seq<Visit>)
    requires Consecutive(visits)
    ensures NonDecreasing(CellMap(visits))
    ensures forall i :: 0 <= i < |CellMap(visits)| ==> visits != [] ==> visits[0].col <= CellMap(visits)[i]
  {
    if |visits| > 0 {
      var rest := visits[1..];
      CellMapNonDecreasing(rest);
      if rest == [] {
        assert Columns(rest) == [];
        assert CellMap(visits) == Repeat(visits[0].col, visits[0].units) + [visits[0].end];
      } else {
        assert EndColumn(visits) == EndColumn(rest);
        assert CellMap(visits) == Repeat(visits[0].col, visits[0].units) + CellMap(rest);
        assert visits[1].col == visits[0].end;
      }
    }
  }

  // ------------------------------------------------------------------ columns of a link on one row

  /** One row of a logical line: its offset in the full text, its own length, and its map when it is not plain Latin-1. */
  datatype ParsedRow = ParsedRow(offset: nat, length: nat, cellMap: Option<seq<int>>)

  datatype Span = Span(start: int, width: int)

  function Max(a: int, b: int): int { if a < b then b else a }
  function Min(a: int, b: int): int { if a < b then a else b }

  function Lookup(cellMap: Option<seq<int>>, index: int): int {
    if cellMap.Some? && 0 <= index < |cellMap.value| then cellMap.value[index] else index
  }

  function CellSpan(link: Match, row: ParsedRow): Option<Span> {
    if link.endIndex <= row.offset || link.startIndex >= row.offset + row.length then None
    else
      var segmentStart := Max(link.startIndex - row.offset, 0);
      var segmentEnd := Min(link.endIndex - row.offset, row.length);
      if segmentEnd <= segmentStart then None
      else
        var cellStart := Lookup(row.cellMap, segmentStart);
        var width := Lookup(row.cellMap, segmentEnd) - cellStart;
        if width <= 0 then None else Some(Span(cellStart, width))
  }

  /** The row's text is the concatenation of its first cells (trailing blank cells may have been trimmed). */
  ghost predicate TextIsCells(row: ParsedRow, cells: seq<Cell>, maxCols: nat) {
    row.cellMap.Some? ==>
      exists k :: 0 <= k <= |Visits(cells, 0, maxCols)|
        && |Columns(Visits(cells, 0, maxCols)[..k])| == row.length
        && row.cellMap.value == CellMap(Needed(Visits(cells, 0, maxCols), row.length))
  }

  lemma {:induction false} NeededExactly(visits: seq<Visit>, k: nat)
    requires Consecutive(visits) && k <= |visits|
    ensures Needed(visits, |Columns(visits[..k])|) == visits[..k]
  {
    if k > 0 {
      NeededExactly(visits[1..], k - 1);
      assert visits[..k][1..] == visits[1..][..k - 1];
      assert visits[..k] == [visits[0]] + visits[1..][..k - 1];
    }
  }

  lemma MapCoversRow(row: ParsedRow, cells: seq<Cell>, maxCols: nat)
    requires TextIsCells(row, cells, maxCols) && row.cellMap.Some?
    ensures |row.cellMap.value| == row.length + 1 && NonDecreasing(row.cellMap.value)
  {
    var visits := Visits(cells, 0, maxCols);
    VisitsAreConsecutive(cells, 0, maxCols);
    var k :| 0 <= k <= |visits| && |Columns(visits[..k])| == row.length
             && row.cellMap.value == CellMap(Needed(visits, row.length));
    NeededExactly(visits, k);
    CellMapNonDecreasing(visits[..k]);
  }

  predicate Apart(a: Span, b: Span) {
    a.start + a.width <= b.start || b.start + b.width <= a.start
  }

  /** On such a row, links that share no character cover column ranges that share no column. */
  lemma DisjointLinksCoverDisjointColumns(a: Match, b: Match, row: ParsedRow, cells: seq<Cell>, maxCols: nat)
    requires TextIsCells(row, cells, maxCols)
    requires Disjoint(a, b)
    requires CellSpan(a, row).Some? && CellSpan(b, row).Some?
    ensures Apart(CellSpan(a, row).value, CellSpan(b, row).value)
  {
    if row.cellMap.Some? {
      MapCoversRow(row, cells, maxCols);
    }
  }

  /** The links of a line, mapped to any of its rows, never paint one column twice. */
  lemma LinksCoverDisjointColumns(matchers: seq<Matcher>, row: ParsedRow, cells: seq<Cell>, maxCols: nat)
    requires TextIsCells(row, cells, maxCols)
    ensures var links := LinksOf(matchers);
            forall a, b :: 0 <= a < b < |links| && CellSpan(links[a], row).Some? && CellSpan(links[b], row).Some? ==>
              Apart(CellSpan(links[a], row).value, CellSpan(links[b], row).value)
  {
    LinksArePairwiseDisjoint(matchers);
    var links := LinksOf(matchers);
    forall a, b | 0 <= a < b < |links| && CellSpan(links[a], row).Some? && CellSpan(links[b], row).Some?
      ensures Apart(CellSpan(links[a], row).value, CellSpan(links[b], row).value)
    {
      DisjointLinksCoverDisjointColumns(links[a], links[b], row, cells, maxCols);
    }
  }
}
