/** Where the repair puts items, and what the user's actions do to them (src/hooks/useActivityBarController.tsx). */
module ActivityBarPlaces {
  import opened Text
  import opened ActivityBar

  // ------------------------------------------------------------------ which copy of an item survives

  /** Of several copies the one in the first zone survives, in the order left top, left bottom, right top, right bottom. */
  lemma FirstZoneWins(layout: Layout, x: Id)
    requires x != FileTransfer
    ensures var d := Deduplicated(layout);
            && (x in d.leftTop <==> x in layout.leftTop)
            && (x in d.leftBottom <==> x in layout.leftBottom && x !in layout.leftTop)
            && (x in d.rightTop <==> x in layout.rightTop && !OnLeft(layout, x))
            && (x in d.rightBottom <==> x in layout.rightBottom && !OnLeft(layout, x) && x !in layout.rightTop)
  {
    var lt := Unique(layout.leftTop, {}, NotRetired);
    var lb := Unique(layout.leftBottom, Set(lt), NotRetired);
    var rt := Unique(layout.rightTop, Set(lt) + Set(lb), NotRetired);
    UniqueTimes(layout.leftTop, {}, x);
    UniqueTimes(layout.leftBottom, Set(lt), x);
    UniqueTimes(layout.rightTop, Set(lt) + Set(lb), x);
    UniqueTimes(layout.rightBottom, Set(lt) + Set(lb) + Set(rt), x);
  }

  // ------------------------------------------------------------------ neighbours

  /** `b` stands right after `a`. */
  predicate Adjacent(ids: seq<Id>, a: Id, b: Id) { exists k :: 0 <= k && k + 1 < |ids| && ids[k] == a && ids[k + 1] == b }

  lemma InsertedIsAdjacent(ids: seq<Id>, k: nat, x: Id)
    requires k <= |ids|
    ensures x in InsertAt(ids, k, x) && forall y :: y in ids ==> y in InsertAt(ids, k, x)
    ensures k > 0 ==> Adjacent(InsertAt(ids, k, x), ids[k - 1], x)
    ensures k < |ids| ==> Adjacent(InsertAt(ids, k, x), x, ids[k])
  {
    var r := InsertAt(ids, k, x);
    assert r[k] == x && (k > 0 ==> r[k - 1] == ids[k - 1]) && (k < |ids| ==> r[k + 1] == ids[k]);
    forall y | y in ids ensures y in r {
      var i :| 0 <= i < |ids| && ids[i] == y;
      assert r[if i < k then i else i + 1] == y;
    }
  }

  lemma InsertKeepsAdjacent(ids: seq<Id>, k: nat, x: Id, a: Id, b: Id)
    requires k <= |ids| && Adjacent(ids, a, b) && !(0 < k < |ids| && ids[k - 1] == a && ids[k] == b)
    ensures Adjacent(InsertAt(ids, k, x), a, b)
  {
    var r := InsertAt(ids, k, x);
    var i :| 0 <= i && i + 1 < |ids| && ids[i] == a && ids[i + 1] == b;
    if i + 1 < k {
      assert r[i] == a && r[i + 1] == b;
    } else {
      assert r[i + 1] == a && r[i + 2] == b;
    }
  }

  lemma InsertAddsOnly(ids: seq<Id>, k: nat, x: Id, y: Id)
    requires k <= |ids|
    ensures y in InsertAt(ids, k, x) <==> y in ids || y == x
  {
    InsertAtAddsOne(ids, k, x, y);
  }

  // ------------------------------------------------------------------ one rule

  /** The pair of neighbours a rule makes when its anchor is there: the anchor first, or the item first. */
  function Pair(rule: Rule): (Id, Id) {
    match rule
    case After(_, anchor, id) => (anchor, id)
    case BeforeOrPush(_, anchor, id) => (id, anchor)
    case SerialSendRule => (QuickCmdBar, SerialSend)
  }

  function Anchor(rule: Rule): Id {
    match rule
    case After(_, anchor, _) => anchor
    case BeforeOrPush(_, anchor, _) => anchor
    case SerialSendRule => QuickCmdBar
  }

  /** A rule that never puts its item between `a` and `b`. */
  predicate Spares(rule: Rule, a: Id, b: Id) {
    match rule
    case After(_, anchor, _) => anchor != a
    case BeforeOrPush(_, anchor, _) => anchor != b
    case SerialSendRule => a != QuickCmdBar && b != Recording && b != Lock
  }

  lemma PlacedNextToAnchor(ids: seq<Id>, rule: Rule)
    requires Missing(rule) !in ids
    ensures Missing(rule) in Placed(ids, rule)
    ensures Anchor(rule) in ids ==> Adjacent(Placed(ids, rule), Pair(rule).0, Pair(rule).1)
  {
    PlacedAtSpot(ids, rule);
    InsertedIsAdjacent(ids, Spot(ids, rule), Missing(rule));
  }

  /** Without its anchor an item comes first, or last; the serial sender then falls back on recording, the lock, and the end. */
  lemma PlacedWithoutAnchor(ids: seq<Id>, rule: Rule)
    requires Missing(rule) !in ids && Anchor(rule) !in ids
    ensures var r := Placed(ids, rule);
            match rule
            case After(_, _, id) => r == [id] + ids
            case BeforeOrPush(_, _, id) => r == ids + [id]
            case SerialSendRule =>
              if Recording in ids then Adjacent(r, SerialSend, Recording)
              else if Lock in ids then Adjacent(r, SerialSend, Lock)
              else r == ids + [SerialSend]
  {
    PlacedAtSpot(ids, rule);
    InsertedIsAdjacent(ids, Spot(ids, rule), Missing(rule));
  }

  lemma PlacedSpares(ids: seq<Id>, rule: Rule, a: Id, b: Id)
    requires Missing(rule) !in ids && Adjacent(ids, a, b) && Spares(rule, a, b)
    ensures Adjacent(Placed(ids, rule), a, b)
  {
    PlacedAtSpot(ids, rule);
    InsertKeepsAdjacent(ids, Spot(ids, rule), Missing(rule), a, b);
  }

  lemma PlacedAddsOnly(ids: seq<Id>, rule: Rule, y: Id)
    requires Missing(rule) !in ids
    ensures y in Placed(ids, rule) <==> y in ids || y == Missing(rule)
  {
    PlacedAtSpot(ids, rule);
    InsertAddsOnly(ids, Spot(ids, rule), Missing(rule), y);
  }

  // ------------------------------------------------------------------ all rules

  lemma RestoredZone(layout: Layout, rule: Rule, zone: Zone)
    ensures Ids(Restored(layout, rule), zone)
         == if !Listed(layout, Missing(rule)) && zone == Home(rule) then Placed(Ids(layout, zone), rule) else Ids(layout, zone)
    ensures !Listed(layout, Missing(rule)) ==> Missing(rule) !in Ids(layout, zone)
  {
    ListedIffOccurs(layout, Missing(rule));
  }

  lemma UpTo(layout: Layout, rules: seq<Rule>, n: nat)
    requires n < |rules|
    ensures RestoredBy(layout, rules[..n + 1]) == Restored(RestoredBy(layout, rules[..n]), rules[n])
  {
    assert rules[..n + 1][..n] == rules[..n];
  }

  /** One rule keeps what a zone holds, and neighbours it spares. */
  lemma OneRuleKeeps(layout: Layout, rule: Rule, zone: Zone, y: Id, a: Id, b: Id)
    ensures var was, now := Ids(layout, zone), Ids(Restored(layout, rule), zone);
            && (y in was ==> y in now) && (y in now && y != Missing(rule) ==> y in was)
            && (Adjacent(was, a, b) && Spares(rule, a, b) ==> Adjacent(now, a, b))
  {
    RestoredZone(layout, rule, zone);
    if !Listed(layout, Missing(rule)) && zone == Home(rule) {
      PlacedAddsOnly(Ids(layout, zone), rule, y);
      if Adjacent(Ids(layout, zone), a, b) && Spares(rule, a, b) { PlacedSpares(Ids(layout, zone), rule, a, b); }
    }
  }

  /** A zone after the first `n` rules. */
  function ZoneAfter(layout: Layout, rules: seq<Rule>, n: nat, zone: Zone): seq<Id>
    requires n <= |rules|
  {
    Ids(RestoredBy(layout, rules[..n]), zone)
  }

  lemma NextRuleKeeps(layout: Layout, rules: seq<Rule>, n: nat, zone: Zone, y: Id, a: Id, b: Id)
    requires n < |rules|
    ensures var was, now := ZoneAfter(layout, rules, n, zone), ZoneAfter(layout, rules, n + 1, zone);
            && (y in was ==> y in now) && (y in now && y != Missing(rules[n]) ==> y in was)
            && (Adjacent(was, a, b) && Spares(rules[n], a, b) ==> Adjacent(now, a, b))
  {
    UpTo(layout, rules, n);
    OneRuleKeeps(RestoredBy(layout, rules[..n]), rules[n], zone, y, a, b);
  }

  lemma {:induction false} LaterRulesKeep(layout: Layout, rules: seq<Rule>, m: nat, n: nat, zone: Zone, y: Id)
    requires m <= n <= |rules|
    ensures y in ZoneAfter(layout, rules, m, zone) ==> y in ZoneAfter(layout, rules, n, zone)
    ensures y in ZoneAfter(layout, rules, n, zone) && (forall i :: m <= i < n ==> Missing(rules[i]) != y) ==>
              y in ZoneAfter(layout, rules, m, zone)
    decreases n
  {
    if m < n {
      LaterRulesKeep(layout, rules, m, n - 1, zone, y);
      NextRuleKeeps(layout, rules, n - 1, zone, y, y, y);
    }
  }

  lemma {:induction false} LaterRulesSpare(layout: Layout, rules: seq<Rule>, m: nat, n: nat, zone: Zone, a: Id, b: Id)
    requires m <= n <= |rules| && forall i :: m <= i < n ==> Spares(rules[i], a, b)
    requires Adjacent(ZoneAfter(layout, rules, m, zone), a, b)
    ensures Adjacent(ZoneAfter(layout, rules, n, zone), a, b)
    decreases n
  {
    if m < n {
      LaterRulesSpare(layout, rules, m, n - 1, zone, a, b);
      NextRuleKeeps(layout, rules, n - 1, zone, a, a, b);
    }
  }

  lemma {:induction false} OtherRulesDoNotList(layout: Layout, rules: seq<Rule>, n: nat, x: Id)
    requires n <= |rules| && !Listed(layout, x) && forall i :: 0 <= i < n ==> Missing(rules[i]) != x
    ensures !Listed(RestoredBy(layout, rules[..n]), x)
  {
    if n > 0 {
      OtherRulesDoNotList(layout, rules, n - 1, x);
      UpTo(layout, rules, n - 1);
      RestoredAddsMissing(RestoredBy(layout, rules[..n - 1]), rules[n - 1], x);
      ListedIffOccurs(RestoredBy(layout, rules[..n - 1]), x);
      ListedIffOccurs(RestoredBy(layout, rules[..n]), x);
    }
  }

  /** Rule `i` decides where its item is found when all rules have run. */
  lemma ReturnsByRule(layout: Layout, rules: seq<Rule>, i: nat)
    requires i < |rules| && !Listed(layout, Missing(rules[i]))
    requires forall j :: 0 <= j < i ==> Missing(rules[j]) != Missing(rules[i])
    requires forall j :: i < j < |rules| ==> Spares(rules[j], Pair(rules[i]).0, Pair(rules[i]).1) && Missing(rules[j]) != Anchor(rules[i])
    requires Missing(rules[i]) != Anchor(rules[i])
    ensures var ids := Ids(RestoredBy(layout, rules), Home(rules[i]));
            && Missing(rules[i]) in ids
            && (Anchor(rules[i]) in ids ==> Adjacent(ids, Pair(rules[i]).0, Pair(rules[i]).1))
  {
    var rule, zone := rules[i], Home(rules[i]);
    var before := RestoredBy(layout, rules[..i]);
    OtherRulesDoNotList(layout, rules, i, Missing(rule));
    UpTo(layout, rules, i);
    RestoredZone(before, rule, zone);
    PlacedNextToAnchor(Ids(before, zone), rule);
    PlacedAddsOnly(Ids(before, zone), rule, Anchor(rule));
    LaterRulesKeep(layout, rules, i + 1, |rules|, zone, Missing(rule));
    LaterRulesKeep(layout, rules, i + 1, |rules|, zone, Anchor(rule));
    if Adjacent(ZoneAfter(layout, rules, i + 1, zone), Pair(rule).0, Pair(rule).1) {
      LaterRulesSpare(layout, rules, i + 1, |rules|, zone, Pair(rule).0, Pair(rule).1);
    }
    assert rules[..|rules|] == rules;
  }

  // ------------------------------------------------------------------ the places

  predicate Nine(rules: seq<Rule>) {
    && |rules| == 9
    && rules[0] == BeforeOrPush(LeftBottom, Settings, SyncBackupHistory)
    && rules[1] == After(LeftTop, FileExplorer, Notes)
    && rules[2] == After(RightTop, SavedConnections, AiAssistant)
    && rules[3] == SerialSendRule
    && rules[4] == BeforeOrPush(RightBottom, Lock, Recording)
    && rules[5] == After(RightTop, ResourceMonitor, GpuMonitor)
    && rules[6] == After(RightTop, GpuMonitor, AscendNpuMonitor)
    && rules[7] == After(RightTop, AscendNpuMonitor, ProcessManager)
    && rules[8] == After(RightTop, ProcessManager, DockerManager)
  }

  lemma NineReturn(layout: Layout, rules: seq<Rule>, i: nat)
    requires Nine(rules) && i < 9 && !Listed(layout, Missing(rules[i]))
    ensures var ids := Ids(RestoredBy(layout, rules), Home(rules[i]));
            && Missing(rules[i]) in ids
            && (Anchor(rules[i]) in ids ==> Adjacent(ids, Pair(rules[i]).0, Pair(rules[i]).1))
  {
    ReturnsByRule(layout, rules, i);
  }

  lemma ListedAfterDeduplication(layout: Layout, x: Id)
    requires x != FileTransfer
    ensures Listed(Deduplicated(layout), x) <==> Listed(layout, x)
  {
    DeduplicatedIsDistinct(layout, x);
    ListedIffOccurs(Deduplicated(layout), x);
  }

  lemma RequiredReturns(layout: Layout, i: nat)
    requires i < 9 && !Listed(layout, Missing(RULES[i]))
    ensures var ids := Ids(RepairedLayout(layout), Home(RULES[i]));
            && Missing(RULES[i]) in ids
            && (Anchor(RULES[i]) in ids ==> Adjacent(ids, Pair(RULES[i]).0, Pair(RULES[i]).1))
  {
    RulesAreNine();
    ListedAfterDeduplication(layout, Missing(RULES[i]));
    NineReturn(Deduplicated(layout), RULES, i);
    HiddenKeepsZone(Zones(layout), RepairedLayout(layout).hidden, Home(RULES[i]));
  }

  lemma RulesAreNine()
    ensures Nine(RULES)
  {
  }

  lemma HiddenKeepsZone(layout: Layout, hidden: seq<Id>, zone: Zone)
    ensures Ids(layout.(hidden := hidden), zone) == Ids(layout, zone)
  {
  }

  /** `x` is in the zone, and if `a` is there too, right after it; or right before it. */
  predicate ReturnsAfter(ids: seq<Id>, a: Id, x: Id) { x in ids && (a in ids ==> Adjacent(ids, a, x)) }
  predicate ReturnsBefore(ids: seq<Id>, x: Id, a: Id) { x in ids && (a in ids ==> Adjacent(ids, x, a)) }

  /** Where each required item comes back that a configuration does not list. */
  lemma MissingItemsReturn(layout: Layout)
    ensures var r := RepairedLayout(layout);
            && (!Listed(layout, SyncBackupHistory) ==> ReturnsBefore(r.leftBottom, SyncBackupHistory, Settings))
            && (!Listed(layout, Notes) ==> ReturnsAfter(r.leftTop, FileExplorer, Notes))
            && (!Listed(layout, AiAssistant) ==> ReturnsAfter(r.rightTop, SavedConnections, AiAssistant))
            && (!Listed(layout, SerialSend) ==> ReturnsAfter(r.rightBottom, QuickCmdBar, SerialSend))
            && (!Listed(layout, Recording) ==> ReturnsBefore(r.rightBottom, Recording, Lock))
    ensures var r := RepairedLayout(layout);
            && (!Listed(layout, GpuMonitor) ==> ReturnsAfter(r.rightTop, ResourceMonitor, GpuMonitor))
            && (!Listed(layout, AscendNpuMonitor) ==> ReturnsAfter(r.rightTop, GpuMonitor, AscendNpuMonitor))
            && (!Listed(layout, ProcessManager) ==> ReturnsAfter(r.rightTop, AscendNpuMonitor, ProcessManager))
            && (!Listed(layout, DockerManager) ==> ReturnsAfter(r.rightTop, ProcessManager, DockerManager))
  {
    var r := RepairedLayout(layout);
    RulesAreNine();
    forall i | 0 <= i < 9 && !Listed(layout, Missing(RULES[i]))
      ensures var ids := Ids(r, Home(RULES[i]));
              Missing(RULES[i]) in ids && (Anchor(RULES[i]) in ids ==> Adjacent(ids, Pair(RULES[i]).0, Pair(RULES[i]).1))
    {
      RequiredReturns(layout, i);
    }
    FromRules(layout, r, RULES);
  }

  lemma FromRules(layout: Layout, r: Layout, rules: seq<Rule>)
    requires Nine(rules)
    requires forall i :: 0 <= i < 9 && !Listed(layout, Missing(rules[i])) ==>
               var ids := Ids(r, Home(rules[i]));
               Missing(rules[i]) in ids && (Anchor(rules[i]) in ids ==> Adjacent(ids, Pair(rules[i]).0, Pair(rules[i]).1))
    ensures && (!Listed(layout, SyncBackupHistory) ==> ReturnsBefore(r.leftBottom, SyncBackupHistory, Settings))
            && (!Listed(layout, Notes) ==> ReturnsAfter(r.leftTop, FileExplorer, Notes))
            && (!Listed(layout, AiAssistant) ==> ReturnsAfter(r.rightTop, SavedConnections, AiAssistant))
            && (!Listed(layout, SerialSend) ==> ReturnsAfter(r.rightBottom, QuickCmdBar, SerialSend))
            && (!Listed(layout, Recording) ==> ReturnsBefore(r.rightBottom, Recording, Lock))
    ensures && (!Listed(layout, GpuMonitor) ==> ReturnsAfter(r.rightTop, ResourceMonitor, GpuMonitor))
            && (!Listed(layout, AscendNpuMonitor) ==> ReturnsAfter(r.rightTop, GpuMonitor, AscendNpuMonitor))
            && (!Listed(layout, ProcessManager) ==> ReturnsAfter(r.rightTop, AscendNpuMonitor, ProcessManager))
            && (!Listed(layout, DockerManager) ==> ReturnsAfter(r.rightTop, ProcessManager, DockerManager))
  {
    assert Missing(rules[0]) == SyncBackupHistory && Missing(rules[1]) == Notes && Missing(rules[2]) == AiAssistant;
    assert Missing(rules[3]) == SerialSend && Missing(rules[4]) == Recording && Missing(rules[5]) == GpuMonitor;
    assert Missing(rules[6]) == AscendNpuMonitor && Missing(rules[7]) == ProcessManager && Missing(rules[8]) == DockerManager;
  }

  // ------------------------------------------------------------------ what the repair keeps

  /** Panels stay open, and items stay hidden, as far as the repaired layout allows it; no others open or hide. */
  lemma RepairKeepsOpenAndHidden(ui: Ui, x: Id)
    ensures var r := Repaired(ui);
            && (x in r.leftOpen <==> x in ui.leftOpen && OnLeft(r.layout, x) && Available(ui.switches, x))
            && (x in r.rightOpen <==> x in ui.rightOpen && OnRight(r.layout, x) && Available(ui.switches, x))
            && (x in r.layout.hidden <==> x in ui.layout.hidden && Listed(r.layout, x))
  {
    var r := Repaired(ui);
    UniqueKeeps(ui.leftOpen, {}, LeftOf(r.layout, ui.switches), x);
    UniqueKeeps(ui.rightOpen, {}, RightOf(r.layout, ui.switches), x);
    HiddenIsWhatIsListed(ui.layout, x);
  }

  lemma HiddenIsWhatIsListed(layout: Layout, x: Id)
    ensures x in RepairedLayout(layout).hidden <==> x in layout.hidden && Listed(RepairedLayout(layout), x)
  {
    UniqueKeeps(layout.hidden, {}, InLayout(Zones(layout)), x);
    HidingKeepsZones(Zones(layout), RepairedLayout(layout).hidden, x);
  }

  /** What becomes of an active panel: kept if it is an available panel of its side, else none. */
  predicate KeptIfPossible(was: Option<Id>, now: Option<Id>, possible: bool) { now == if possible then was else None }

  /** Active panels stay active on their side; the retired file-transfer panel hands over to the file explorer. */
  lemma RepairKeepsActive(ui: Ui)
    ensures var r := Repaired(ui);
            && (ui.activeLeft == Some(FileTransfer) ==>
                  r.activeLeft == if OnLeft(r.layout, FileExplorer) && Available(ui.switches, FileExplorer) then Some(FileExplorer) else None)
            && (ui.activeLeft != Some(FileTransfer) ==>
                  KeptIfPossible(ui.activeLeft, r.activeLeft,
                    ui.activeLeft.Some? && ui.activeLeft != Some(Other("")) &&
                    OnLeft(r.layout, ui.activeLeft.value) && Available(ui.switches, ui.activeLeft.value)))
            && KeptIfPossible(ui.activeRight, r.activeRight,
                 ui.activeRight.Some? && ui.activeRight != Some(Other("")) &&
                 OnRight(r.layout, ui.activeRight.value) && Available(ui.switches, ui.activeRight.value))
  {
    RepairedLayoutIsNormal(ui.layout);
    assert !Listed(RepairedLayout(ui.layout), FileTransfer);
  }

  // ------------------------------------------------------------------ the user's actions

  /**
   * A click on an available panel of a side in single mode: it opens the panel on that side, or closes it if it was the active one, and
   * leaves the other side and all pinned panels alone.
   */
  lemma ClickTogglesPanel(ui: Ui, rendered: Layout, id: Id)
    requires OpensPanel(id)
    ensures var s := Selected(ui, rendered, id, false);
            && s.leftOpen == ui.leftOpen && s.rightOpen == ui.rightOpen && s.layout == ui.layout
            && (OnLeft(rendered, id) ==> s.activeRight == ui.activeRight
                                         && s.activeLeft == if ui.activeLeft == Some(id) then None else Some(id))
            && (!OnLeft(rendered, id) && OnRight(rendered, id) ==>
                  s.activeLeft == ui.activeLeft && s.activeRight == if ui.activeRight == Some(id) then None else Some(id))
            && (!Listed(rendered, id) ==> s == ui)
  {
  }

  /** In multi-open mode a first click pins and reveals a panel; after that clicks hide and reveal it, and it stays pinned. */
  lemma ClicksPinRevealAndHide(ui: Ui, rendered: Layout, id: Id)
    requires OpensPanel(id) && id != AiAssistant && OnLeft(rendered, id)
    ensures var s := Selected(ui, rendered, id, true);
            var t := Selected(s, rendered, id, true);
            && id in s.leftOpen && (id !in ui.leftOpen || ui.activeLeft != Some(id) ==> s.activeLeft == Some(id))
            && (forall x :: x in ui.leftOpen ==> x in s.leftOpen) && s.rightOpen == ui.rightOpen && s.activeRight == ui.activeRight
            && t.leftOpen == s.leftOpen && (t.activeLeft == Some(id) <==> s.activeLeft != Some(id))
  {
  }

  lemma ClicksPinRevealAndHideRight(ui: Ui, rendered: Layout, id: Id)
    requires OpensPanel(id) && id != AiAssistant && !OnLeft(rendered, id) && OnRight(rendered, id)
    ensures var s := Selected(ui, rendered, id, true);
            var t := Selected(s, rendered, id, true);
            && id in s.rightOpen && (id !in ui.rightOpen || ui.activeRight != Some(id) ==> s.activeRight == Some(id))
            && (forall x :: x in ui.rightOpen ==> x in s.rightOpen) && s.leftOpen == ui.leftOpen && s.activeLeft == ui.activeLeft
            && t.rightOpen == s.rightOpen && (t.activeRight == Some(id) <==> s.activeRight != Some(id))
  {
  }

  /** The quick-command bar and the serial sender exclude each other, and a second click closes what the first one opened. */
  lemma BarsExcludeEachOther(ui: Ui, rendered: Layout, id: Id, multi: bool)
    requires id == QuickCmdBar || id == SerialSend
    requires !(ui.showQuickCmdBar && ui.showSerialSend)
    ensures var s := Selected(ui, rendered, id, multi);
            var t := Selected(s, rendered, id, multi);
            && !(s.showQuickCmdBar && s.showSerialSend)
            && (if id == QuickCmdBar then s.showQuickCmdBar != ui.showQuickCmdBar else s.showSerialSend != ui.showSerialSend)
            && (if id == QuickCmdBar then t.showQuickCmdBar == ui.showQuickCmdBar else t.showSerialSend == ui.showSerialSend)
            && s.(showQuickCmdBar := ui.showQuickCmdBar, showSerialSend := ui.showSerialSend) == ui
  {
  }

  /** Hiding and showing change whether this item is hidden, and nothing else. */
  lemma HideAndShowAreExact(layout: Layout, id: Id, x: Id)
    ensures x in Hidden(layout, id).hidden <==> x in layout.hidden || x == id
    ensures x in Shown(layout, id).hidden <==> x in layout.hidden && x != id
    ensures x in Toggled(layout, id).hidden <==> if x == id then id !in layout.hidden else x in layout.hidden
    ensures forall zone :: Ids(Hidden(layout, id), zone) == Ids(layout, zone) == Ids(Shown(layout, id), zone)
  {
    TimesDropped(layout.hidden, id, x);
    forall zone ensures Ids(Hidden(layout, id), zone) == Ids(layout, zone) == Ids(Shown(layout, id), zone) {
      HiddenKeepsZone(layout, Hidden(layout, id).hidden, zone);
      HiddenKeepsZone(layout, Shown(layout, id).hidden, zone);
    }
  }

  lemma MovedZone(layout: Layout, id: Id, target: Zone, zone: Zone)
    ensures Ids(MovedLayout(layout, id, target), zone) == Dropped(Ids(layout, zone), id) + if zone == target then [id] else []
  {
  }

  /** A moved item is last in its target zone and nowhere else, and it is neither open nor active on the side it does not belong to. */
  lemma MoveIsExact(ui: Ui, id: Id, target: Zone, zone: Zone)
    ensures var m := Moved(ui, id, target);
            && Ids(m.layout, target) != [] && Ids(m.layout, target)[|Ids(m.layout, target)| - 1] == id
            && (zone != target ==> id !in Ids(m.layout, zone))
            && (if IsRight(target) then id !in m.leftOpen && m.activeLeft != Some(id) && m.rightOpen == ui.rightOpen
                else id !in m.rightOpen && m.activeRight != Some(id) && m.leftOpen == ui.leftOpen)
  {
    MovedZone(ui.layout, id, target, target);
    MovedZone(ui.layout, id, target, zone);
    TimesDropped(Ids(ui.layout, zone), id, id);
    TimesDropped(ui.leftOpen, id, id);
    TimesDropped(ui.rightOpen, id, id);
  }

  /** Each switch decides about one item, and every other item is always available. */
  lemma SwitchesDecideAvailability(s: Switches, id: Id)
    ensures Available(s, id)
       <==> && (s.notes || id != Notes) && (s.stats || id != ResourceMonitor) && (s.gpu || id != GpuMonitor)
            && (s.npu || id != AscendNpuMonitor) && (s.processes || id != ProcessManager) && (s.docker || id != DockerManager)
  {
  }
}
