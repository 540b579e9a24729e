/** Dropping dragged activity-bar items (src/lib/appWorkspace.ts:291-303, src/hooks/useActivityBarController.tsx:324-335). */
module ActivityBarReorder {
  import opened ActivityBar

  predicate Visible(ui: Ui, id: Id) { Available(ui.switches, id) && id !in ui.layout.hidden }

  /** The positions that may be refilled hold a visible id of the requested order. */
  function Slot(ui: Ui, ordered: seq<Id>): Id -> bool { x => x in ordered && Visible(ui, x) }

  /** Every slot takes the next requested id, as long as there is one; everything else stays. */
  function Filled(current: seq<Id>, slot: Id -> bool, next: seq<Id>): seq<Id> {
    if current == [] then []
    else if !slot(current[0]) || next == [] then [current[0]] + Filled(current[1..], slot, next)
    else [next[0]] + Filled(current[1..], slot, next[1..])
  }

  /** The requested ids that found no slot. */
  function Unplaced(current: seq<Id>, slot: Id -> bool, next: seq<Id>): seq<Id> {
    if current == [] then next
    else if !slot(current[0]) || next == [] then Unplaced(current[1..], slot, next)
    else Unplaced(current[1..], slot, next[1..])
  }

  function Without(ids: seq<Id>, placed: seq<Id>): seq<Id> {
    if ids == [] then []
    else if ids[0] in placed then Without(ids[1..], placed)
    else [ids[0]] + Without(ids[1..], placed)
  }

  function Merged(current: seq<Id>, ordered: seq<Id>, slot: Id -> bool): seq<Id> {
    Filled(current, slot, ordered) + Without(Unplaced(current, slot, ordered), Filled(current, slot, ordered))
  }

  lemma FilledStep(before: seq<Id>, current: seq<Id>, slot: Id -> bool, next: seq<Id>)
    requires current != []
    ensures var keep := !slot(current[0]) || next == [];
            before + Filled(current, slot, next) ==
              if keep then before + [current[0]] + Filled(current[1..], slot, next)
              else before + [next[0]] + Filled(current[1..], slot, next[1..])
  {
  }

  /** The pass over the current ids, taking requested ids off the front of a copy. */
  method FillSlots(current: seq<Id>, ordered: seq<Id>, slot: Id -> bool) returns (reordered: seq<Id>, next: seq<Id>)
    ensures reordered == Filled(current, slot, ordered) && next == Unplaced(current, slot, ordered)
  {
    next, reordered := ordered, [];
    ghost var rest, all := current, Filled(current, slot, ordered);
    for i := 0 to |current|
      invariant rest == current[i..] && reordered + Filled(rest, slot, next) == all
      invariant Unplaced(rest, slot, next) == Unplaced(current, slot, ordered)
    {
      FilledStep(reordered, rest, slot, next);
      rest := rest[1..];
      if !slot(current[i]) || next == [] {
        reordered := reordered + [current[i]];
      } else {
        reordered := reordered + [next[0]];
        next := next[1..];
      }
    }
  }

  /** The pass over the ids left, keeping those that were not placed. */
  method KeepUnplaced(next: seq<Id>, placed: seq<Id>) returns (kept: seq<Id>)
    ensures kept == Without(next, placed)
  {
    kept := [];
    for i := 0 to |next|
      invariant kept + Without(next[i..], placed) == Without(next, placed)
    {
      assert next[i..][1..] == next[i + 1..];
      if next[i] !in placed {
        ghost var tail := Without(next[i + 1..], placed);
        assert kept + ([next[i]] + tail) == kept + [next[i]] + tail;
        kept := kept + [next[i]];
      }
    }
  }

  method MergeVisibleReorder(current: seq<Id>, ordered: seq<Id>, ui: Ui) returns (merged: seq<Id>)
    ensures merged == Merged(current, ordered, Slot(ui, ordered))
  {
    var reordered, next := FillSlots(current, ordered, Slot(ui, ordered));
    var kept := KeepUnplaced(next, reordered);
    merged := reordered + kept;
  }

  // ------------------------------------------------------------------ what a reorder moves

  /** The ids standing in slots, in their current order. */
  function Picked(current: seq<Id>, slot: Id -> bool): seq<Id> {
    if current == [] then []
    else if slot(current[0]) then [current[0]] + Picked(current[1..], slot)
    else Picked(current[1..], slot)
  }

  lemma {:induction false} PickedTimes(current: seq<Id>, slot: Id -> bool, x: Id)
    ensures Times(Picked(current, slot), x) == if slot(x) then Times(current, x) else 0
  {
    if current != [] {
      PickedTimes(current[1..], slot, x);
      TimesSplit(current, x);
      if slot(current[0]) { TimesSplit(Picked(current, slot), x); }
    }
  }

  /** With as many slots as requested ids, all find a place, and the exchange conserves every id. */
  lemma {:induction false} FilledConserves(current: seq<Id>, slot: Id -> bool, next: seq<Id>, x: Id)
    requires |Picked(current, slot)| == |next|
    ensures Times(Filled(current, slot, next), x) + Times(Picked(current, slot), x) == Times(current, x) + Times(next, x)
    ensures Unplaced(current, slot, next) == []
  {
    if current != [] {
      TimesSplit(current, x);
      TimesSplit(Filled(current, slot, next), x);
      if slot(current[0]) {
        TimesSplit(Picked(current, slot), x);
        TimesSplit(next, x);
        FilledConserves(current[1..], slot, next[1..], x);
      } else {
        FilledConserves(current[1..], slot, next, x);
      }
    }
  }

  /** Position by position: a slot holds the requested id whose number is the count of slots before it. */
  lemma {:induction false} FilledAt(current: seq<Id>, slot: Id -> bool, next: seq<Id>, i: nat)
    requires |Picked(current, slot)| == |next| && i < |current|
    ensures |Filled(current, slot, next)| == |current|
    ensures |Picked(current[..i], slot)| <= |next| && (slot(current[i]) ==> |Picked(current[..i], slot)| < |next|)
    ensures Filled(current, slot, next)[i] == if slot(current[i]) then next[|Picked(current[..i], slot)|] else current[i]
  {
    var rest := if slot(current[0]) then next[1..] else next;
    if |current| == 1 {
      assert Filled(current[1..], slot, rest) == [];
      assert current[..0] == [];
    } else if i == 0 {
      FilledAt(current[1..], slot, rest, 0);
      assert current[..0] == [];
    } else {
      FilledAt(current[1..], slot, rest, i - 1);
      assert current[..i][1..] == current[1..][..i - 1] && current[..i][0] == current[0];
    }
  }

  /** What a drop passes on: some of the zone's visible ids, each once, in the order wanted. */
  ghost predicate IsDrop(ui: Ui, current: seq<Id>, ordered: seq<Id>) {
    Distinct(ordered) && forall x :: x in ordered ==> x in current && Available(ui.switches, x) && x !in ui.layout.hidden
  }

  lemma SameTimes(a: seq<Id>, b: seq<Id>)
    requires forall x :: Times(a, x) == Times(b, x)
    ensures multiset(a) == multiset(b) && |a| == |b|
  {
    forall x ensures multiset(a)[x] == multiset(b)[x] {
      assert Times(a, x) == Times(b, x);
    }
    assert multiset(a) == multiset(b);
    assert |a| == |multiset(a)| && |b| == |multiset(b)|;
  }

  lemma PickedAsOften(ui: Ui, current: seq<Id>, ordered: seq<Id>, x: Id)
    requires Distinct(current) && IsDrop(ui, current, ordered)
    ensures Times(Picked(current, Slot(ui, ordered)), x) == Times(ordered, x)
  {
    PickedTimes(current, Slot(ui, ordered), x);
    assert Times(current, x) <= 1 && Times(ordered, x) <= 1;
  }

  lemma PickedIsOrdered(ui: Ui, current: seq<Id>, ordered: seq<Id>)
    requires Distinct(current) && IsDrop(ui, current, ordered)
    ensures multiset(Picked(current, Slot(ui, ordered))) == multiset(ordered)
    ensures |Picked(current, Slot(ui, ordered))| == |ordered|
  {
    var picked := Picked(current, Slot(ui, ordered));
    forall x ensures Times(picked, x) == Times(ordered, x) {
      PickedAsOften(ui, current, ordered, x);
    }
    SameTimes(picked, ordered);
  }

  lemma FilledIsPermutation(current: seq<Id>, slot: Id -> bool, ordered: seq<Id>)
    requires multiset(Picked(current, slot)) == multiset(ordered) && |Picked(current, slot)| == |ordered|
    ensures multiset(Filled(current, slot, ordered)) == multiset(current)
  {
    var filled := Filled(current, slot, ordered);
    forall x ensures Times(filled, x) == Times(current, x) {
      FilledConserves(current, slot, ordered, x);
    }
    SameTimes(filled, current);
  }

  /** A drop permutes the zone: no id appears, disappears or is repeated. */
  lemma MergedIsPermutation(ui: Ui, current: seq<Id>, ordered: seq<Id>)
    requires Distinct(current) && IsDrop(ui, current, ordered)
    ensures Merged(current, ordered, Slot(ui, ordered)) == Filled(current, Slot(ui, ordered), ordered)
    ensures multiset(Merged(current, ordered, Slot(ui, ordered))) == multiset(current)
  {
    PickedIsOrdered(ui, current, ordered);
    FilledIsPermutation(current, Slot(ui, ordered), ordered);
    FilledConserves(current, Slot(ui, ordered), ordered, FileTransfer);
    assert Without([], Filled(current, Slot(ui, ordered), ordered)) == [];
  }

  /**
   * Ids outside the requested order, hidden ones among them, stay at their index; the places of the requested ids hold them in the
   * requested order.
   */
  lemma MergedAt(ui: Ui, current: seq<Id>, ordered: seq<Id>, i: nat)
    requires Distinct(current) && IsDrop(ui, current, ordered) && i < |current|
    ensures var merged := Merged(current, ordered, Slot(ui, ordered));
            var before := |Picked(current[..i], Slot(ui, ordered))|;
            && |merged| == |current|
            && (current[i] !in ordered ==> merged[i] == current[i])
            && (current[i] in ordered ==> before < |ordered| && merged[i] == ordered[before])
  {
    PickedIsOrdered(ui, current, ordered);
    MergedIsPermutation(ui, current, ordered);
    FilledAt(current, Slot(ui, ordered), ordered, i);
  }

  // ------------------------------------------------------------------ the action

  function Reordered(ui: Ui, zone: Zone, ordered: seq<Id>): Ui {
    ui.(layout := WithIds(ui.layout, zone, Merged(Ids(ui.layout, zone), ordered, Slot(ui, ordered))))
  }

  lemma SameMultisetSameSides(layout: Layout, zone: Zone, ids: seq<Id>, x: Id)
    ensures var l := WithIds(layout, zone, ids);
            Times(ids, x) == Times(Ids(layout, zone), x) ==>
              && Occurrences(l, x) == Occurrences(layout, x)
              && (OnLeft(l, x) <==> OnLeft(layout, x)) && (OnRight(l, x) <==> OnRight(layout, x))
  {
    if Times(ids, x) == Times(Ids(layout, zone), x) {
      OccurrencesWith(layout, zone, ids, x);
      assert x in ids <==> x in Ids(layout, zone);
    }
  }

  lemma ZoneIsDistinct(layout: Layout, zone: Zone)
    requires LayoutNormal(layout)
    ensures Distinct(Ids(layout, zone))
  {
    forall x ensures Times(Ids(layout, zone), x) <= 1 {
      OneZoneOnly(layout, x);
    }
  }

  /** Reordering the visible items of a zone keeps the normal form. */
  lemma ReorderKeepsNormal(ui: Ui, zone: Zone, ordered: seq<Id>)
    requires Normal(ui)
    ensures IsDrop(ui, Ids(ui.layout, zone), ordered) ==> Normal(Reordered(ui, zone, ordered))
  {
    if IsDrop(ui, Ids(ui.layout, zone), ordered) {
      DropKeepsNormal(ui, zone, ordered, Ids(ui.layout, zone));
    }
  }

  lemma DropKeepsNormal(ui: Ui, zone: Zone, ordered: seq<Id>, ids: seq<Id>)
    requires Normal(ui) && ids == Ids(ui.layout, zone) && IsDrop(ui, ids, ordered)
    ensures Normal(Reordered(ui, zone, ordered))
  {
    var current := Ids(ui.layout, zone);
    var merged := Merged(current, ordered, Slot(ui, ordered));
    var layout := WithIds(ui.layout, zone, merged);
    ZoneIsDistinct(ui.layout, zone);
    MergedIsPermutation(ui, current, ordered);
    forall x
      ensures Occurrences(layout, x) == Occurrences(ui.layout, x) && (Listed(layout, x) <==> Listed(ui.layout, x))
      ensures LeftOf(layout, ui.switches)(x) == LeftOf(ui.layout, ui.switches)(x)
      ensures RightOf(layout, ui.switches)(x) == RightOf(ui.layout, ui.switches)(x)
    {
      SameMultisetSameSides(ui.layout, zone, merged, x);
    }
    assert layout.hidden == ui.layout.hidden;
    SideCarriesOver(LeftOf(ui.layout, ui.switches), LeftOf(layout, ui.switches), ui.leftOpen, ui.activeLeft);
    SideCarriesOver(RightOf(ui.layout, ui.switches), RightOf(layout, ui.switches), ui.rightOpen, ui.activeRight);
  }
}
