/** Which columns of a row a link covers, cell by cell (src/lib/actionLinksAddon.ts:226-258 and 822-845). */
module ActionLinkColumns {
  import opened Text
  import opened ActionLinkSelection

  predicate Covers(link: Match, row: ParsedRow, x: int) {
    var span := CellSpan(link, row);
    span.Some? && span.value.start <= x < span.value.start + span.value.width
  }

  // ------------------------------------------------------------------ the map at the cells

  /** The number of string units of the first `j` cells. */
  function UnitsBefore(visits: seq<Visit>, j: nat): nat
    requires j <= |visits|
  {
    |Columns(visits[..j])|
  }

  lemma ColumnsCons(v: Visit, rest: seq<Visit>)
    ensures Columns([v] + rest) == Repeat(v.col, v.units) + Columns(rest)
  {
    assert ([v] + rest)[1..] == rest;
  }

  lemma {:induction false} ColumnsSplit(a: seq<Visit>, b: seq<Visit>)
    ensures Columns(a + b) == Columns(a) + Columns(b)
  {
    if a == [] {
      assert a + b == b;
    } else {
      ColumnsSplit(a[1..], b);
      assert a + b == [a[0]] + (a[1..] + b);
      ColumnsCons(a[0], a[1..] + b);
      Regrouped(Repeat(a[0].col, a[0].units), Columns(a[1..]), Columns(b));
    }
  }

  lemma Regrouped<T>(a: seq<T>, b: seq<T>, c: seq<T>)
    ensures a + (b + c) == a + b + c
  {
  }

  /** A cell's units stand at the cell's column; after its last unit the map goes on where the cell ends. */
  lemma CellInMap(visits: seq<Visit>, j: nat)
    requires Consecutive(visits) && j < |visits|
    ensures var map', from, past := CellMap(visits), UnitsBefore(visits, j), UnitsBefore(visits, j + 1);
            && past == from + visits[j].units && past < |map'| == UnitsBefore(visits, |visits|) + 1
            && (forall u :: from <= u < past ==> map'[u] == visits[j].col) && map'[past] == visits[j].end
  {
    var head, rest := visits[..j], visits[j + 1..];
    assert visits == head + [visits[j]] + rest && visits[..j + 1] == head + [visits[j]] && visits[..|visits|] == visits;
    ColumnsSplit(head, [visits[j]]);
    ColumnsSplit(head + [visits[j]], rest);
    assert Columns([visits[j]]) == Repeat(visits[j].col, visits[j].units) by {
      assert [visits[j]][1..] == [];
    }
    if rest != [] {
      assert visits[j].end == visits[j + 1].col == rest[0].col && rest[0].units > 0;
      assert Columns(rest)[0] == rest[0].col;
    } else {
      assert Columns(rest) == [];
    }
  }

  predicate IsVisit(row: seq<Cell>, v: Visit, maxCols: nat) {
    && v.col < |row| && v.col < maxCols
    && v.units == (if row[v.col].units > 0 then row[v.col].units else 1)
    && v.end == v.col + (if row[v.col].width > 0 then row[v.col].width else 1)
  }

  /**
   * The walk visits cells of the row, from column `col` on, each where the one before ends, with an empty cell counting as one
   * character and a cell without width as one column; it goes on to the end of the row or to the last column allowed.
   */
  lemma {:induction false} WalkVisitsTheRow(row: seq<Cell>, col: nat, maxCols: nat)
    ensures var visits := Visits(row, col, maxCols);
            && Consecutive(visits) && (forall j :: 0 <= j < |visits| ==> IsVisit(row, visits[j], maxCols))
            && (if visits == [] then col >= maxCols || col >= |row|
                else visits[0].col == col && (EndColumn(visits) >= maxCols || EndColumn(visits) >= |row|))
    decreases |row| - col
  {
    if col < maxCols && col < |row| {
      var v := VisitAt(row, col);
      var rest := Visits(row, v.end, maxCols);
      WalkVisitsTheRow(row, v.end, maxCols);
      VisitsAreConsecutive(row, col, maxCols);
      forall j | 0 <= j < |rest| + 1 ensures IsVisit(row, ([v] + rest)[j], maxCols) {
        if j > 0 { assert ([v] + rest)[j] == rest[j - 1]; }
      }
    }
  }

  // ------------------------------------------------------------------ a link on a row of cells

  /** Some unit of the row's text belongs to the link, whose part on the row is then not empty. */
  lemma SpanOfPart(link: Match, row: ParsedRow, start: int, end: int)
    requires start == Max(link.startIndex - row.offset, 0) && end == Min(link.endIndex - row.offset, row.length)
    ensures CellSpan(link, row)
         == if start < end && Lookup(row.cellMap, start) < Lookup(row.cellMap, end)
            then Some(Span(Lookup(row.cellMap, start), Lookup(row.cellMap, end) - Lookup(row.cellMap, start))) else None
  {
  }

  /** The link contains the string unit that stands at `unit` on this row. */
  predicate HasUnit(link: Match, row: ParsedRow, unit: int) { link.startIndex <= row.offset + unit < link.endIndex }

  /** On a plain row every character is one column wide, and a link covers the columns of its characters. */
  lemma PlainRowColumns(link: Match, row: ParsedRow, x: int)
    requires row.cellMap.None?
    ensures Covers(link, row, x) <==> 0 <= x < row.length && HasUnit(link, row, x)
  {
    SpanOfPart(link, row, Max(link.startIndex - row.offset, 0), Min(link.endIndex - row.offset, row.length));
  }

  /** The cells that make up the row's text. */
  ghost predicate CellsOfRow(row: ParsedRow, visits: seq<Visit>) {
    Consecutive(visits) && row.length == UnitsBefore(visits, |visits|) && row.cellMap == Some(CellMap(visits))
  }

  lemma CellsAreFound(row: ParsedRow, cells: seq<Cell>, maxCols: nat) returns (visits: seq<Visit>)
    requires TextIsCells(row, cells, maxCols) && row.cellMap.Some?
    ensures CellsOfRow(row, visits) && visits <= Visits(cells, 0, maxCols)
  {
    var all := Visits(cells, 0, maxCols);
    VisitsAreConsecutive(cells, 0, maxCols);
    var k :| 0 <= k <= |all| && |Columns(all[..k])| == row.length && row.cellMap.value == CellMap(Needed(all, row.length));
    NeededExactly(all, k);
    visits := all[..k];
    assert visits[..|visits|] == visits;
  }

  /** Where the map stands, relative to a cell, at the two ends of the link's part of the row. */
  lemma EndsAroundCell(visits: seq<Visit>, j: nat, u: nat)
    requires Consecutive(visits) && j < |visits| && u < |CellMap(visits)|
    ensures u < UnitsBefore(visits, j + 1) ==> CellMap(visits)[u] <= visits[j].col
    ensures u >= UnitsBefore(visits, j + 1) ==> CellMap(visits)[u] >= visits[j].end
  {
    CellInMap(visits, j);
    CellMapNonDecreasing(visits);
    assert CellMap(visits)[UnitsBefore(visits, j + 1) - 1] == visits[j].col;
  }

  /**
   * On a row of cells a link covers exactly the cells whose last string unit belongs to it, each with all its columns: a column of cell
   * `j` is covered if and only if the link contains the last unit of that cell.
   */
  lemma CellColumns(link: Match, row: ParsedRow, visits: seq<Visit>, j: nat, x: int)
    requires CellsOfRow(row, visits) && j < |visits| && visits[j].col <= x < visits[j].end
    ensures Covers(link, row, x) <==> HasUnit(link, row, UnitsBefore(visits, j + 1) - 1)
  {
    var start, end := Max(link.startIndex - row.offset, 0), Min(link.endIndex - row.offset, row.length);
    SpanOfPart(link, row, start, end);
    CellInMap(visits, j);
    if start < end {
      EndsAroundCell(visits, j, start);
      EndsAroundCell(visits, j, end);
    }
  }

  /** Before the first cell and from the end of the last one on, nothing is covered. */
  lemma NothingBeyondTheCells(link: Match, row: ParsedRow, visits: seq<Visit>, x: int)
    requires CellsOfRow(row, visits) && (visits != [] ==> x < visits[0].col || x >= visits[|visits| - 1].end)
    ensures !Covers(link, row, x)
  {
    var start, end := Max(link.startIndex - row.offset, 0), Min(link.endIndex - row.offset, row.length);
    SpanOfPart(link, row, start, end);
    if start < end {
      CellMapNonDecreasing(visits);
      CellInMap(visits, |visits| - 1);
    }
  }
}
