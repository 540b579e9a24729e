/** The activity bar's normal form (src/hooks/useActivityBarController.tsx with src/lib/appWorkspace.ts). */
module ActivityBar {
  import opened Text

  /** Item ids: those the code names, and any other string. */
  datatype Id =
    | FileExplorer | Notes | Network | SecurityAuth | SyncBackupHistory | Settings
    | SavedConnections | AiAssistant | ActiveSessions | CommandHistory | ResourceMonitor
    | GpuMonitor | AscendNpuMonitor | ProcessManager | DockerManager
    | QuickCmdBar | SerialSend | Recording | Lock
    | FileTransfer
    | Other(name: string)

  datatype Zone = LeftTop | LeftBottom | RightTop | RightBottom

  datatype Layout = Layout(
    leftTop: seq<Id>, leftBottom: seq<Id>, rightTop: seq<Id>, rightBottom: seq<Id>, hidden: seq<Id>, showLabels: bool)

  /** The visibility switches of the monitor panels, defaults already applied. */
  datatype Switches = Switches(notes: bool, stats: bool, gpu: bool, npu: bool, processes: bool, docker: bool)

  datatype Ui = Ui(
    layout: Layout, leftOpen: seq<Id>, rightOpen: seq<Id>, activeLeft: Option<Id>, activeRight: Option<Id>,
    switches: Switches, showQuickCmdBar: bool, showSerialSend: bool)

  const DEFAULT_LAYOUT: Layout := Layout(
    [FileExplorer, Notes, Network, SecurityAuth],
    [SyncBackupHistory, Settings],
    [SavedConnections, AiAssistant, ActiveSessions, CommandHistory, ResourceMonitor, GpuMonitor, AscendNpuMonitor, ProcessManager, DockerManager],
    [QuickCmdBar, SerialSend, Recording, Lock],
    [], false)

  function Ids(layout: Layout, zone: Zone): seq<Id> {
    match zone
    case LeftTop => layout.leftTop
    case LeftBottom => layout.leftBottom
    case RightTop => layout.rightTop
    case RightBottom => layout.rightBottom
  }

  function WithIds(layout: Layout, zone: Zone, ids: seq<Id>): Layout {
    match zone
    case LeftTop => layout.(leftTop := ids)
    case LeftBottom => layout.(leftBottom := ids)
    case RightTop => layout.(rightTop := ids)
    case RightBottom => layout.(rightBottom := ids)
  }

  predicate OnLeft(layout: Layout, id: Id) { id in layout.leftTop || id in layout.leftBottom }
  predicate OnRight(layout: Layout, id: Id) { id in layout.rightTop || id in layout.rightBottom }
  predicate Listed(layout: Layout, id: Id) { OnLeft(layout, id) || OnRight(layout, id) }

  predicate Available(switches: Switches, id: Id) {
    if id == Notes then switches.notes
    else if id == ResourceMonitor then switches.stats
    else if id == GpuMonitor then switches.gpu
    else if id == AscendNpuMonitor then switches.npu
    else if id == ProcessManager then switches.processes
    else if id == DockerManager then switches.docker
    else true
  }

  /** The empty string is falsy, so it never counts as an active panel. */
  predicate Truthy(id: Id) { id != Other("") }

  // ------------------------------------------------------------------ the normal form

  function Times(ids: seq<Id>, x: Id): nat { multiset(ids)[x] }

  /** How often an id occurs across the four zones. */
  function Occurrences(layout: Layout, x: Id): nat {
    Times(layout.leftTop, x) + Times(layout.leftBottom, x) + Times(layout.rightTop, x) + Times(layout.rightBottom, x)
  }

  ghost predicate Distinct(ids: seq<Id>) { forall x :: Times(ids, x) <= 1 }

  const REQUIRED: set<Id> := {
    SyncBackupHistory, Notes, AiAssistant, SerialSend, Recording, GpuMonitor, AscendNpuMonitor, ProcessManager, DockerManager}

  ghost predicate LayoutNormal(layout: Layout) {
    && (forall x :: Occurrences(layout, x) <= 1)
    && !Listed(layout, FileTransfer)
    && (forall x :: x in REQUIRED ==> Listed(layout, x))
    && Distinct(layout.hidden) && (forall x :: x in layout.hidden ==> Listed(layout, x))
  }

  function LeftOf(layout: Layout, switches: Switches): Id -> bool { x => OnLeft(layout, x) && Available(switches, x) }
  function RightOf(layout: Layout, switches: Switches): Id -> bool { x => OnRight(layout, x) && Available(switches, x) }

  /** One side's panels: open ones are distinct panels of that side, and so is the active one. */
  ghost predicate SideNormal(isPanel: Id -> bool, open: seq<Id>, active: Option<Id>) {
    && Distinct(open) && (forall x :: x in open ==> isPanel(x))
    && (active.Some? ==> Truthy(active.value) && isPanel(active.value))
  }

  /**
   * No id occurs twice across the four zones, the retired id is gone, all required ids are listed, hidden ids are listed ones, and
   * open and active panels lie on their own side and are available.
   */
  ghost predicate Normal(ui: Ui) {
    && LayoutNormal(ui.layout)
    && SideNormal(LeftOf(ui.layout, ui.switches), ui.leftOpen, ui.activeLeft)
    && SideNormal(RightOf(ui.layout, ui.switches), ui.rightOpen, ui.activeRight)
  }

  // ------------------------------------------------------------------ building blocks

  /** First occurrences of the allowed ids that were not seen before. */
  function Unique(ids: seq<Id>, seen: set<Id>, allowed: Id -> bool): seq<Id> {
    if ids == [] then []
    else if !allowed(ids[0]) || ids[0] in seen then Unique(ids[1..], seen, allowed)
    else [ids[0]] + Unique(ids[1..], seen + {ids[0]}, allowed)
  }

  function Set(ids: seq<Id>): set<Id> { set x | x in ids }

  lemma TimesSplit(ids: seq<Id>, x: Id)
    requires ids != []
    ensures Times(ids, x) == (if ids[0] == x then 1 else 0) + Times(ids[1..], x)
  {
    assert ids == [ids[0]] + ids[1..];
  }

  lemma {:induction false} UniqueKeeps(ids: seq<Id>, seen: set<Id>, allowed: Id -> bool, x: Id)
    ensures x in Unique(ids, seen, allowed) <==> x in ids && allowed(x) && x !in seen
    ensures Times(Unique(ids, seen, allowed), x) <= 1
    decreases |ids|
  {
    if ids != [] {
      if !allowed(ids[0]) || ids[0] in seen {
        UniqueKeeps(ids[1..], seen, allowed, x);
      } else {
        UniqueKeeps(ids[1..], seen + {ids[0]}, allowed, x);
        TimesSplit(Unique(ids, seen, allowed), x);
      }
    }
  }

  lemma {:induction false} UniqueIsIdentity(ids: seq<Id>, seen: set<Id>, allowed: Id -> bool)
    requires forall x :: x in ids ==> allowed(x) && x !in seen && Times(ids, x) <= 1
    ensures Unique(ids, seen, allowed) == ids
    decreases |ids|
  {
    if ids != [] {
      forall x | x in ids[1..]
        ensures allowed(x) && x !in seen + {ids[0]} && Times(ids[1..], x) <= 1
      {
        assert x in ids;
        TimesSplit(ids, x);
      }
      UniqueIsIdentity(ids[1..], seen + {ids[0]}, allowed);
    }
  }

  predicate NotRetired(x: Id) { x != FileTransfer }

  /** The four zones, deduplicated in order with one shared `seen` set, without the retired id. */
  function Deduplicated(layout: Layout): Layout {
    var lt := Unique(layout.leftTop, {}, NotRetired);
    var lb := Unique(layout.leftBottom, Set(lt), NotRetired);
    var rt := Unique(layout.rightTop, Set(lt) + Set(lb), NotRetired);
    var rb := Unique(layout.rightBottom, Set(lt) + Set(lb) + Set(rt), NotRetired);
    layout.(leftTop := lt, leftBottom := lb, rightTop := rt, rightBottom := rb)
  }

  lemma UniqueTimes(ids: seq<Id>, seen: set<Id>, x: Id)
    ensures Times(Unique(ids, seen, NotRetired), x) == if x in ids && x != FileTransfer && x !in seen then 1 else 0
    ensures x in Set(Unique(ids, seen, NotRetired)) <==> x in ids && x != FileTransfer && x !in seen
  {
    UniqueKeeps(ids, seen, NotRetired, x);
  }

  lemma DeduplicatedIsDistinct(layout: Layout, x: Id)
    ensures Occurrences(Deduplicated(layout), x) == if Listed(layout, x) && x != FileTransfer then 1 else 0
  {
    var lt := Unique(layout.leftTop, {}, NotRetired);
    UniqueTimes(layout.leftTop, {}, x);
    var lb := Unique(layout.leftBottom, Set(lt), NotRetired);
    UniqueTimes(layout.leftBottom, Set(lt), x);
    var rt := Unique(layout.rightTop, Set(lt) + Set(lb), NotRetired);
    UniqueTimes(layout.rightTop, Set(lt) + Set(lb), x);
    var rb := Unique(layout.rightBottom, Set(lt) + Set(lb) + Set(rt), NotRetired);
    UniqueTimes(layout.rightBottom, Set(lt) + Set(lb) + Set(rt), x);
    assert Deduplicated(layout) == layout.(leftTop := lt, leftBottom := lb, rightTop := rt, rightBottom := rb);
  }

  lemma CleanZoneIsKept(ids: seq<Id>, seen: set<Id>)
    requires forall x :: x in ids ==> x != FileTransfer && x !in seen && Times(ids, x) <= 1
    ensures Unique(ids, seen, NotRetired) == ids
  {
    UniqueIsIdentity(ids, seen, NotRetired);
  }

  /** An id that occurs once is in one zone only. */
  lemma OneZoneOnly(layout: Layout, x: Id)
    requires Occurrences(layout, x) <= 1
    ensures forall zone :: Times(Ids(layout, zone), x) <= 1
    ensures x in layout.leftBottom ==> x !in layout.leftTop
    ensures x in layout.rightTop ==> x !in layout.leftTop && x !in layout.leftBottom
    ensures x in layout.rightBottom ==> x !in layout.leftTop && x !in layout.leftBottom && x !in layout.rightTop
  {
  }

  lemma LeftZonesAreKept(layout: Layout)
    requires (forall x :: Occurrences(layout, x) <= 1) && !Listed(layout, FileTransfer)
    ensures Unique(layout.leftTop, {}, NotRetired) == layout.leftTop
    ensures Unique(layout.leftBottom, Set(layout.leftTop), NotRetired) == layout.leftBottom
  {
    var lt, lb := layout.leftTop, layout.leftBottom;
    forall x | x in lt ensures Times(lt, x) <= 1 {
      OneZoneOnly(layout, x);
      assert Ids(layout, LeftTop) == lt;
    }
    CleanZoneIsKept(lt, {});
    forall x | x in lb ensures x !in Set(lt) && Times(lb, x) <= 1 {
      OneZoneOnly(layout, x);
      assert Ids(layout, LeftBottom) == lb;
    }
    CleanZoneIsKept(lb, Set(lt));
  }

  lemma RightTopIsKept(layout: Layout, left: set<Id>)
    requires (forall x :: Occurrences(layout, x) <= 1) && !Listed(layout, FileTransfer)
    requires left == Set(layout.leftTop) + Set(layout.leftBottom)
    ensures Unique(layout.rightTop, left, NotRetired) == layout.rightTop
  {
    var rt := layout.rightTop;
    forall x | x in rt ensures x !in left && Times(rt, x) <= 1 {
      OneZoneOnly(layout, x);
      assert Ids(layout, RightTop) == rt;
    }
    CleanZoneIsKept(rt, left);
  }

  lemma RightBottomIsKept(layout: Layout, others: set<Id>)
    requires (forall x :: Occurrences(layout, x) <= 1) && !Listed(layout, FileTransfer)
    requires others == Set(layout.leftTop) + Set(layout.leftBottom) + Set(layout.rightTop)
    ensures Unique(layout.rightBottom, others, NotRetired) == layout.rightBottom
  {
    var rb := layout.rightBottom;
    forall x | x in rb ensures x !in others && Times(rb, x) <= 1 {
      OneZoneOnly(layout, x);
      assert Ids(layout, RightBottom) == rb;
    }
    CleanZoneIsKept(rb, others);
  }

  lemma DeduplicatedIsIdentity(layout: Layout)
    requires (forall x :: Occurrences(layout, x) <= 1) && !Listed(layout, FileTransfer)
    ensures Deduplicated(layout) == layout
  {
    LeftZonesAreKept(layout);
    var left := Set(layout.leftTop) + Set(layout.leftBottom);
    RightTopIsKept(layout, left);
    RightBottomIsKept(layout, left + Set(layout.rightTop));
  }

  // ------------------------------------------------------------------ inserting what is missing

  function IndexOf(ids: seq<Id>, id: Id): (i: nat)
    ensures i <= |ids| && (i < |ids| ==> ids[i] == id) && (i == |ids| <==> id !in ids)
  {
    if ids == [] || ids[0] == id then 0 else 1 + IndexOf(ids[1..], id)
  }

  function InsertAt(ids: seq<Id>, k: nat, id: Id): seq<Id>
    requires k <= |ids|
  {
    ids[..k] + [id] + ids[k..]
  }

  function InsertAfter(ids: seq<Id>, anchor: Id, id: Id): seq<Id> {
    if id in ids then ids
    else if anchor in ids then InsertAt(ids, IndexOf(ids, anchor) + 1, id)
    else InsertAt(ids, 0, id)
  }

  function InsertBeforeOrPush(ids: seq<Id>, anchor: Id, id: Id): seq<Id> {
    if id in ids then ids else InsertAt(ids, IndexOf(ids, anchor), id)
  }

  /** After the quick-command bar, else before recording, else before the lock, else last. */
  function InsertSerialSend(ids: seq<Id>): seq<Id> {
    if QuickCmdBar in ids then InsertAt(ids, IndexOf(ids, QuickCmdBar) + 1, SerialSend)
    else if Recording in ids then InsertAt(ids, IndexOf(ids, Recording), SerialSend)
    else InsertAt(ids, IndexOf(ids, Lock), SerialSend)
  }

  /** A rule that gives a missing id its place in its home zone. */
  datatype Rule = After(zone: Zone, anchor: Id, id: Id) | BeforeOrPush(zone: Zone, anchor: Id, id: Id) | SerialSendRule

  function Missing(rule: Rule): Id { if rule.SerialSendRule? then SerialSend else rule.id }

  function Home(rule: Rule): Zone { if rule.SerialSendRule? then RightBottom else rule.zone }

  function Placed(ids: seq<Id>, rule: Rule): seq<Id> {
    match rule
    case After(_, anchor, id) => InsertAfter(ids, anchor, id)
    case BeforeOrPush(_, anchor, id) => InsertBeforeOrPush(ids, anchor, id)
    case SerialSendRule => InsertSerialSend(ids)
  }

  function Restored(layout: Layout, rule: Rule): Layout {
    if Listed(layout, Missing(rule)) then layout
    else WithIds(layout, Home(rule), Placed(Ids(layout, Home(rule)), rule))
  }

  /** In the order of the source. */
  const RULES: seq<Rule> := [
    BeforeOrPush(LeftBottom, Settings, SyncBackupHistory),
    After(LeftTop, FileExplorer, Notes),
    After(RightTop, SavedConnections, AiAssistant),
    SerialSendRule,
    BeforeOrPush(RightBottom, Lock, Recording),
    After(RightTop, ResourceMonitor, GpuMonitor),
    After(RightTop, GpuMonitor, AscendNpuMonitor),
    After(RightTop, AscendNpuMonitor, ProcessManager),
    After(RightTop, ProcessManager, DockerManager)]

  function RestoredBy(layout: Layout, rules: seq<Rule>): Layout {
    if rules == [] then layout else Restored(RestoredBy(layout, rules[..|rules| - 1]), rules[|rules| - 1])
  }

  lemma InsertAtAddsOne(ids: seq<Id>, k: nat, id: Id, x: Id)
    requires k <= |ids|
    ensures Times(InsertAt(ids, k, id), x) == Times(ids, x) + (if x == id then 1 else 0)
  {
    assert ids == ids[..k] + ids[k..];
  }

  /** Where a missing id goes. */
  function Spot(ids: seq<Id>, rule: Rule): (k: nat)
    ensures k <= |ids|
  {
    match rule
    case After(_, anchor, _) => if anchor in ids then IndexOf(ids, anchor) + 1 else 0
    case BeforeOrPush(_, anchor, _) => IndexOf(ids, anchor)
    case SerialSendRule =>
      if QuickCmdBar in ids then IndexOf(ids, QuickCmdBar) + 1
      else if Recording in ids then IndexOf(ids, Recording)
      else IndexOf(ids, Lock)
  }

  lemma PlacedAtSpot(ids: seq<Id>, rule: Rule)
    requires Missing(rule) !in ids
    ensures Placed(ids, rule) == InsertAt(ids, Spot(ids, rule), Missing(rule))
  {
  }

  lemma PlacedAddsOne(ids: seq<Id>, rule: Rule, x: Id)
    requires Missing(rule) !in ids
    ensures Times(Placed(ids, rule), x) == Times(ids, x) + (if x == Missing(rule) then 1 else 0)
  {
    PlacedAtSpot(ids, rule);
    InsertAtAddsOne(ids, Spot(ids, rule), Missing(rule), x);
  }

  lemma OccurrencesWith(layout: Layout, zone: Zone, ids: seq<Id>, x: Id)
    ensures Occurrences(WithIds(layout, zone, ids), x) == Occurrences(layout, x) - Times(Ids(layout, zone), x) + Times(ids, x)
  {
  }

  lemma ListedIffOccurs(layout: Layout, x: Id)
    ensures Listed(layout, x) <==> Occurrences(layout, x) > 0
    ensures forall zone :: x in Ids(layout, zone) ==> Listed(layout, x)
  {
  }

  lemma WithIdsKeepsTheRest(layout: Layout, zone: Zone, ids: seq<Id>)
    ensures WithIds(layout, zone, ids).hidden == layout.hidden && WithIds(layout, zone, ids).showLabels == layout.showLabels
  {
  }

  /** Restoring adds its id exactly once, and only if it was missing. */
  lemma RestoredAddsMissing(layout: Layout, rule: Rule, x: Id)
    ensures Occurrences(Restored(layout, rule), x)
         == Occurrences(layout, x) + (if !Listed(layout, Missing(rule)) && x == Missing(rule) then 1 else 0)
    ensures Restored(layout, rule).hidden == layout.hidden && Restored(layout, rule).showLabels == layout.showLabels
  {
    if !Listed(layout, Missing(rule)) {
      var zone := Home(rule);
      var ids := Ids(layout, zone);
      ListedIffOccurs(layout, Missing(rule));
      PlacedAddsOne(ids, rule, x);
      OccurrencesWith(layout, zone, Placed(ids, rule), x);
      WithIdsKeepsTheRest(layout, zone, Placed(ids, rule));
    }
  }

  predicate Restores(rules: seq<Rule>, x: Id) {
    rules != [] && (Restores(rules[..|rules| - 1], x) || Missing(rules[|rules| - 1]) == x)
  }

  lemma {:induction false} RestoresIff(rules: seq<Rule>, x: Id)
    ensures Restores(rules, x) <==> exists i :: 0 <= i < |rules| && Missing(rules[i]) == x
  {
    if rules != [] {
      var n := |rules| - 1;
      RestoresIff(rules[..n], x);
      assert forall i :: 0 <= i < n ==> rules[..n][i] == rules[i];
      if Restores(rules, x) && Missing(rules[n]) != x {
        var i :| 0 <= i < n && Missing(rules[..n][i]) == x;
        assert Missing(rules[i]) == x;
      }
    }
  }

  lemma {:induction false} RestoredByAddsMissing(layout: Layout, rules: seq<Rule>, x: Id)
    requires Occurrences(layout, x) <= 1
    ensures var r := RestoredBy(layout, rules);
            && Occurrences(r, x) <= 1 && r.hidden == layout.hidden && r.showLabels == layout.showLabels
            && (Occurrences(r, x) > 0 <==> Occurrences(layout, x) > 0 || Restores(rules, x))
  {
    if rules != [] {
      var before, rule := rules[..|rules| - 1], rules[|rules| - 1];
      var r := RestoredBy(layout, before);
      RestoredByAddsMissing(layout, before, x);
      RestoredAddsMissing(r, rule, x);
      ListedIffOccurs(r, x);
    }
  }

  lemma {:induction false} NothingToRestore(layout: Layout, rules: seq<Rule>)
    requires forall i :: 0 <= i < |rules| ==> Listed(layout, Missing(rules[i]))
    ensures RestoredBy(layout, rules) == layout
  {
    if rules != [] {
      NothingToRestore(layout, rules[..|rules| - 1]);
    }
  }

  lemma RulesRestoreTheRequired(x: Id)
    ensures (exists i :: 0 <= i < |RULES| && Missing(RULES[i]) == x) <==> x in REQUIRED
  {
    assert Missing(RULES[0]) == SyncBackupHistory && Missing(RULES[1]) == Notes && Missing(RULES[2]) == AiAssistant;
    assert Missing(RULES[3]) == SerialSend && Missing(RULES[4]) == Recording && Missing(RULES[5]) == GpuMonitor;
    assert Missing(RULES[6]) == AscendNpuMonitor && Missing(RULES[7]) == ProcessManager && Missing(RULES[8]) == DockerManager;
  }

  // ------------------------------------------------------------------ the repair

  function InLayout(layout: Layout): Id -> bool { x => Listed(layout, x) }

  function Zones(layout: Layout): Layout { RestoredBy(Deduplicated(layout), RULES) }

  function RepairedLayout(layout: Layout): Layout {
    Zones(layout).(hidden := Unique(layout.hidden, {}, InLayout(Zones(layout))))
  }

  function ActiveLeft(ui: Ui, isPanel: Id -> bool): Option<Id> {
    if ui.activeLeft.Some? && Truthy(ui.activeLeft.value) && isPanel(ui.activeLeft.value) then ui.activeLeft
    else if ui.activeLeft == Some(FileTransfer) && isPanel(FileExplorer) then Some(FileExplorer)
    else None
  }

  function ActiveRight(ui: Ui, isPanel: Id -> bool): Option<Id> {
    if ui.activeRight.Some? && Truthy(ui.activeRight.value) && isPanel(ui.activeRight.value) then ui.activeRight else None
  }

  /** The configuration the repair aims at. */
  function Repaired(ui: Ui): Ui {
    var layout := RepairedLayout(ui.layout);
    var left, right := LeftOf(layout, ui.switches), RightOf(layout, ui.switches);
    ui.(layout := layout,
        leftOpen := Unique(ui.leftOpen, {}, left), rightOpen := Unique(ui.rightOpen, {}, right),
        activeLeft := ActiveLeft(ui, left), activeRight := ActiveRight(ui, right))
  }

  /** A partial update: only the fields that change. */
  datatype Patch = Patch(
    layout: Option<Layout>, leftOpen: Option<seq<Id>>, rightOpen: Option<seq<Id>>,
    activeLeft: Option<Option<Id>>, activeRight: Option<Option<Id>>)

  function Or<T>(o: Option<T>, otherwise: T): T { if o.Some? then o.value else otherwise }

  function Apply(ui: Ui, patch: Patch): Ui {
    ui.(layout := Or(patch.layout, ui.layout), leftOpen := Or(patch.leftOpen, ui.leftOpen),
        rightOpen := Or(patch.rightOpen, ui.rightOpen), activeLeft := Or(patch.activeLeft, ui.activeLeft),
        activeRight := Or(patch.activeRight, ui.activeRight))
  }

  /** `updateUi(prev => normalize(prev) ?? {})`. */
  function Update(ui: Ui, patch: Option<Patch>): Ui { if patch.Some? then Apply(ui, patch.value) else ui }

  predicate ZonesDiffer(a: Layout, b: Layout) {
    a.leftTop != b.leftTop || a.leftBottom != b.leftBottom || a.rightTop != b.rightTop || a.rightBottom != b.rightBottom
  }

  function Changed<T(==)>(now: T, was: T): Option<T> { if now != was then Some(now) else None }

  /** Nothing when nothing changes, otherwise a patch with exactly the changed fields. */
  function PatchTo(r: Ui, ui: Ui): Option<Patch> {
    var layoutChanged := ZonesDiffer(r.layout, ui.layout) || r.layout.hidden != ui.layout.hidden;
    if !layoutChanged && r.leftOpen == ui.leftOpen && r.rightOpen == ui.rightOpen
       && r.activeLeft == ui.activeLeft && r.activeRight == ui.activeRight
    then None
    else Some(Patch(if layoutChanged then Some(r.layout) else None,
                    Changed(r.leftOpen, ui.leftOpen), Changed(r.rightOpen, ui.rightOpen),
                    Changed(r.activeLeft, ui.activeLeft), Changed(r.activeRight, ui.activeRight)))
  }

  /** `normalizeActivityBarState`. */
  function Normalized(ui: Ui): Option<Patch> { PatchTo(Repaired(ui), ui) }

  /** Applying the patch gives the target, whatever the two configurations are, as long as the rest is the same. */
  lemma PatchReaches(r: Ui, ui: Ui)
    requires r.layout.showLabels == ui.layout.showLabels && r.switches == ui.switches
    requires r.showQuickCmdBar == ui.showQuickCmdBar && r.showSerialSend == ui.showSerialSend
    ensures Update(ui, PatchTo(r, ui)) == r
    ensures PatchTo(r, ui) == None <==> r == ui
  {
    assert ZonesDiffer(r.layout, ui.layout) || r.layout.hidden != ui.layout.hidden <==> r.layout != ui.layout;
  }

  lemma ZonesKeepTheRest(layout: Layout)
    ensures Zones(layout).hidden == layout.hidden && Zones(layout).showLabels == layout.showLabels
  {
    DeduplicatedIsDistinct(layout, FileTransfer);
    RestoredByAddsMissing(Deduplicated(layout), RULES, FileTransfer);
  }

  lemma PatchIsRepair(ui: Ui)
    ensures Update(ui, Normalized(ui)) == Repaired(ui)
    ensures Normalized(ui) == None <==> Repaired(ui) == ui
  {
    ZonesKeepTheRest(ui.layout);
    PatchReaches(Repaired(ui), ui);
  }

  // ------------------------------------------------------------------ the repair reaches the normal form

  lemma UniqueIsDistinct(ids: seq<Id>, allowed: Id -> bool)
    ensures Distinct(Unique(ids, {}, allowed))
    ensures forall x :: x in Unique(ids, {}, allowed) ==> allowed(x)
  {
    forall x ensures Times(Unique(ids, {}, allowed), x) <= 1 && (x in Unique(ids, {}, allowed) ==> allowed(x)) {
      UniqueKeeps(ids, {}, allowed, x);
    }
  }

  lemma ZonesAreNormal(layout: Layout, x: Id)
    ensures Occurrences(Zones(layout), x) <= 1
    ensures Listed(Zones(layout), x) <==> x in REQUIRED || (Listed(layout, x) && x != FileTransfer)
  {
    DeduplicatedIsDistinct(layout, x);
    RestoredByAddsMissing(Deduplicated(layout), RULES, x);
    RulesRestoreTheRequired(x);
    RestoresIff(RULES, x);
    ListedIffOccurs(Zones(layout), x);
  }

  lemma HidingKeepsZones(layout: Layout, hidden: seq<Id>, x: Id)
    ensures Occurrences(layout.(hidden := hidden), x) == Occurrences(layout, x)
    ensures Listed(layout.(hidden := hidden), x) <==> Listed(layout, x)
  {
  }

  lemma NormalWithHidden(zones: Layout, hidden: seq<Id>)
    requires (forall x :: Occurrences(zones, x) <= 1) && !Listed(zones, FileTransfer)
    requires forall x :: x in REQUIRED ==> Listed(zones, x)
    requires Distinct(hidden) && forall x :: x in hidden ==> Listed(zones, x)
    ensures LayoutNormal(zones.(hidden := hidden))
  {
    var r := zones.(hidden := hidden);
    forall x ensures Occurrences(r, x) == Occurrences(zones, x) && (Listed(r, x) <==> Listed(zones, x)) {
      HidingKeepsZones(zones, hidden, x);
    }
  }

  lemma RepairedLayoutIsNormal(layout: Layout)
    ensures LayoutNormal(RepairedLayout(layout))
  {
    var zones := Zones(layout);
    ZonesHoldWhatIsNeeded(layout, zones);
    UniqueIsDistinct(layout.hidden, InLayout(zones));
    NormalWithHidden(zones, Unique(layout.hidden, {}, InLayout(zones)));
  }

  lemma ZonesHoldWhatIsNeeded(layout: Layout, zones: Layout)
    requires zones == Zones(layout)
    ensures (forall x :: Occurrences(zones, x) <= 1) && !Listed(zones, FileTransfer)
    ensures forall x :: x in REQUIRED ==> Listed(zones, x)
  {
    forall x ensures Occurrences(zones, x) <= 1 && (x in REQUIRED ==> Listed(zones, x)) {
      ZonesAreNormal(layout, x);
    }
    ZonesAreNormal(layout, FileTransfer);
  }

  lemma RepairIsNormal(ui: Ui)
    ensures Normal(Repaired(ui))
  {
    RepairedLayoutIsNormal(ui.layout);
    var r := Repaired(ui);
    UniqueIsDistinct(ui.leftOpen, LeftOf(r.layout, ui.switches));
    UniqueIsDistinct(ui.rightOpen, RightOf(r.layout, ui.switches));
  }

  lemma NormalLayoutIsKept(layout: Layout)
    requires LayoutNormal(layout)
    ensures RepairedLayout(layout) == layout
  {
    DeduplicatedIsIdentity(layout);
    forall i | 0 <= i < |RULES| ensures Listed(layout, Missing(RULES[i])) {
      RulesRestoreTheRequired(Missing(RULES[i]));
    }
    NothingToRestore(layout, RULES);
    UniqueIsIdentity(layout.hidden, {}, InLayout(layout));
  }

  lemma NormalIsKept(ui: Ui)
    requires Normal(ui)
    ensures Repaired(ui) == ui
  {
    NormalLayoutIsKept(ui.layout);
    UniqueIsIdentity(ui.leftOpen, {}, LeftOf(ui.layout, ui.switches));
    UniqueIsIdentity(ui.rightOpen, {}, RightOf(ui.layout, ui.switches));
  }

  /** The repair reports nothing to do exactly for configurations in normal form. */
  lemma NothingToRepairIffNormal(ui: Ui)
    ensures Normalized(ui) == None <==> Normal(ui)
  {
    PatchIsRepair(ui);
    RepairIsNormal(ui);
    if Normal(ui) {
      NormalIsKept(ui);
    }
  }

  /** One step is enough: applying the patch gives a normal form, and the next call returns nothing, so the effect ends. */
  lemma RepairIsOneStepFixpoint(ui: Ui)
    ensures Normal(Update(ui, Normalized(ui)))
    ensures Normalized(Update(ui, Normalized(ui))) == None
  {
    PatchIsRepair(ui);
    RepairIsNormal(ui);
    NothingToRepairIffNormal(Repaired(ui));
  }

  // ------------------------------------------------------------------ the repair as the source writes it

  /** A deduplicating loop over one list, continuing a shared `seen` set. */
  method KeepUnique(ids: seq<Id>, seen: set<Id>, allowed: Id -> bool) returns (kept: seq<Id>, now: set<Id>)
    ensures kept == Unique(ids, seen, allowed) && now == seen + Set(kept)
  {
    kept, now := [], seen;
    for i := 0 to |ids|
      invariant kept + Unique(ids[i..], now, allowed) == Unique(ids, seen, allowed)
      invariant now == seen + Set(kept)
    {
      var id := ids[i];
      assert ids[i..][1..] == ids[i + 1..];
      if !allowed(id) { continue; }
      if id in now { continue; }
      assert kept + ([id] + Unique(ids[i + 1..], now + {id}, allowed)) == kept + [id] + Unique(ids[i + 1..], now + {id}, allowed);
      now := now + {id};
      kept := kept + [id];
    }
    assert ids[|ids|..] == [];
  }

  method NormalizeActivityBarState(ui: Ui) returns (patch: Option<Patch>)
    ensures patch == Normalized(ui)
  {
    var lt, seen1 := KeepUnique(ui.layout.leftTop, {}, NotRetired);
    var lb, seen2 := KeepUnique(ui.layout.leftBottom, seen1, NotRetired);
    var rt, seen3 := KeepUnique(ui.layout.rightTop, seen2, NotRetired);
    var rb, _ := KeepUnique(ui.layout.rightBottom, seen3, NotRetired);
    assert seen1 == Set(lt) && seen2 == Set(lt) + Set(lb) && seen3 == Set(lt) + Set(lb) + Set(rt);
    var zones := RestoredBy(ui.layout.(leftTop := lt, leftBottom := lb, rightTop := rt, rightBottom := rb), RULES);
    var hidden, _ := KeepUnique(ui.layout.hidden, {}, InLayout(zones));
    var layout := zones.(hidden := hidden);
    assert layout == RepairedLayout(ui.layout);
    var left, right := LeftOf(layout, ui.switches), RightOf(layout, ui.switches);
    var leftOpen, _ := KeepUnique(ui.leftOpen, {}, left);
    var rightOpen, _ := KeepUnique(ui.rightOpen, {}, right);
    var activeLeft, activeRight := ActiveLeft(ui, left), ActiveRight(ui, right);
    patch := PatchTo(ui.(layout := layout, leftOpen := leftOpen, rightOpen := rightOpen, activeLeft := activeLeft, activeRight := activeRight), ui);
  }

  // ------------------------------------------------------------------ selecting an item

  datatype Side = Left | Right

  function SideOf(layout: Layout, id: Id): Option<Side> {
    if OnLeft(layout, id) then Some(Left) else if OnRight(layout, id) then Some(Right) else None
  }

  /** One side's open and active panels after a click: single mode toggles, multi-open mode pins, reveals or hides. */
  function SideToggled(open: seq<Id>, active: Option<Id>, id: Id, multi: bool): (seq<Id>, Option<Id>) {
    var toggled := if active == Some(id) then None else Some(id);
    if multi && id != AiAssistant && id !in open then (open + [id], Some(id)) else (open, toggled)
  }

  function PanelSelected(ui: Ui, id: Id, multi: bool, side: Side): Ui {
    if side.Left? then
      var (open, active) := SideToggled(ui.leftOpen, ui.activeLeft, id, multi);
      ui.(leftOpen := open, activeLeft := active)
    else
      var (open, active) := SideToggled(ui.rightOpen, ui.activeRight, id, multi);
      ui.(rightOpen := open, activeRight := active)
  }

  /** These items open no panel. */
  predicate OpensPanel(id: Id) { id != Settings && id != Lock && id != QuickCmdBar && id != SerialSend }

  /** A click on an item in docked mode: the side comes from the layout that was rendered, the rest from the current configuration. */
  function Selected(ui: Ui, rendered: Layout, id: Id, multi: bool): Ui {
    if id == Settings || id == Lock then ui
    else if id == QuickCmdBar then ui.(showQuickCmdBar := !ui.showQuickCmdBar, showSerialSend := false)
    else if id == SerialSend then ui.(showSerialSend := !ui.showSerialSend, showQuickCmdBar := false)
    else match SideOf(rendered, id)
      case None => ui
      case Some(side) => PanelSelected(ui, id, multi, side)
  }

  lemma TimesAppend(ids: seq<Id>, id: Id, x: Id)
    ensures Times(ids + [id], x) == Times(ids, x) + (if x == id then 1 else 0)
  {
  }

  lemma AppendKeepsDistinct(ids: seq<Id>, id: Id)
    requires Distinct(ids) && id !in ids
    ensures Distinct(ids + [id])
  {
    forall x ensures Times(ids + [id], x) <= 1 {
      TimesAppend(ids, id, x);
    }
  }

  /** A click keeps a side normal exactly when the item is a panel of that side. */
  lemma SideToggledIsNormalIff(isPanel: Id -> bool, open: seq<Id>, active: Option<Id>, id: Id, multi: bool)
    requires SideNormal(isPanel, open, active)
    ensures var (o, a) := SideToggled(open, active, id, multi); SideNormal(isPanel, o, a) <==> Truthy(id) && isPanel(id)
  {
    if multi && id != AiAssistant && id !in open { AppendKeepsDistinct(open, id); }
  }

  predicate IsPanelOf(ui: Ui, id: Id, side: Side) {
    if side.Left? then LeftOf(ui.layout, ui.switches)(id) else RightOf(ui.layout, ui.switches)(id)
  }

  lemma PanelSelectKeepsNormalIff(ui: Ui, id: Id, multi: bool, side: Side)
    requires Normal(ui)
    ensures Normal(PanelSelected(ui, id, multi, side)) <==> Truthy(id) && IsPanelOf(ui, id, side)
  {
    if side.Left? {
      SideToggledIsNormalIff(LeftOf(ui.layout, ui.switches), ui.leftOpen, ui.activeLeft, id, multi);
    } else {
      SideToggledIsNormalIff(RightOf(ui.layout, ui.switches), ui.rightOpen, ui.activeRight, id, multi);
    }
  }

  lemma SideIsUnique(ui: Ui, id: Id, side: Side)
    requires Normal(ui)
    ensures IsPanelOf(ui, id, side) <==> Available(ui.switches, id) && SideOf(ui.layout, id) == Some(side)
  {
    OneZoneOnly(ui.layout, id);
  }

  /**
   * In single and in multi-open mode, a click keeps the normal form if and only if the item opens no panel, was not rendered on a
   * side, or is available and still on the side it was rendered on.
   */
  lemma SelectKeepsNormalIff(ui: Ui, rendered: Layout, id: Id, multi: bool)
    requires Normal(ui)
    ensures Normal(Selected(ui, rendered, id, multi))
       <==> || !OpensPanel(id) || SideOf(rendered, id) == None
            || (Truthy(id) && Available(ui.switches, id) && SideOf(ui.layout, id) == SideOf(rendered, id))
  {
    var side := SideOf(rendered, id);
    if OpensPanel(id) && side.Some? {
      SideIsUnique(ui, id, side.value);
      PanelSelectKeepsNormalIff(ui, id, multi, side.value);
    }
  }

  /** Selecting an item the bar shows keeps the normal form. */
  lemma SelectKeepsNormal(ui: Ui, id: Id, multi: bool)
    requires Normal(ui) && Truthy(id) && Available(ui.switches, id)
    ensures Normal(Selected(ui, ui.layout, id, multi))
  {
    SelectKeepsNormalIff(ui, ui.layout, id, multi);
  }

  // ------------------------------------------------------------------ hiding and showing

  function Dropped(ids: seq<Id>, id: Id): seq<Id> {
    if ids == [] then [] else if ids[0] == id then Dropped(ids[1..], id) else [ids[0]] + Dropped(ids[1..], id)
  }

  lemma {:induction false} TimesDropped(ids: seq<Id>, id: Id, x: Id)
    ensures Times(Dropped(ids, id), x) == if x == id then 0 else Times(ids, x)
    ensures x in Dropped(ids, id) <==> x in ids && x != id
  {
    if ids != [] {
      TimesDropped(ids[1..], id, x);
      TimesSplit(ids, x);
      if ids[0] != id {
        TimesSplit(Dropped(ids, id), x);
      }
    }
  }

  lemma DroppedKeepsDistinct(ids: seq<Id>, id: Id)
    requires Distinct(ids)
    ensures Distinct(Dropped(ids, id)) && forall x :: x in Dropped(ids, id) <==> x in ids && x != id
  {
    forall x ensures Times(Dropped(ids, id), x) <= 1 && (x in Dropped(ids, id) <==> x in ids && x != id) {
      TimesDropped(ids, id, x);
    }
  }

  function Hidden(layout: Layout, id: Id): Layout {
    if id in layout.hidden then layout else layout.(hidden := layout.hidden + [id])
  }

  function Shown(layout: Layout, id: Id): Layout {
    if id !in layout.hidden then layout else layout.(hidden := Dropped(layout.hidden, id))
  }

  function Toggled(layout: Layout, id: Id): Layout {
    if id in layout.hidden then Shown(layout, id) else Hidden(layout, id)
  }

  lemma SideCarriesOver(was: Id -> bool, now: Id -> bool, open: seq<Id>, active: Option<Id>)
    requires SideNormal(was, open, active)
    requires forall x :: x in open || active == Some(x) ==> now(x)
    ensures SideNormal(now, open, active)
  {
  }

  lemma HiddenListKeepsNormal(ui: Ui, hidden: seq<Id>)
    requires Normal(ui) && Distinct(hidden) && forall x :: x in hidden ==> Listed(ui.layout, x)
    ensures Normal(ui.(layout := ui.layout.(hidden := hidden)))
  {
    var layout := ui.layout.(hidden := hidden);
    forall x
      ensures Occurrences(layout, x) == Occurrences(ui.layout, x) && (Listed(layout, x) <==> Listed(ui.layout, x))
    {
      HidingKeepsZones(ui.layout, hidden, x);
    }
    SideCarriesOver(LeftOf(ui.layout, ui.switches), LeftOf(layout, ui.switches), ui.leftOpen, ui.activeLeft);
    SideCarriesOver(RightOf(ui.layout, ui.switches), RightOf(layout, ui.switches), ui.rightOpen, ui.activeRight);
  }

  lemma HideKeepsNormal(ui: Ui, id: Id)
    requires Normal(ui) && Listed(ui.layout, id)
    ensures Normal(ui.(layout := Hidden(ui.layout, id)))
  {
    if id !in ui.layout.hidden {
      AppendKeepsDistinct(ui.layout.hidden, id);
      HiddenListKeepsNormal(ui, ui.layout.hidden + [id]);
    }
  }

  lemma ShowKeepsNormal(ui: Ui, id: Id)
    requires Normal(ui)
    ensures Normal(ui.(layout := Shown(ui.layout, id)))
  {
    if id in ui.layout.hidden {
      DroppedKeepsDistinct(ui.layout.hidden, id);
      HiddenListKeepsNormal(ui, Dropped(ui.layout.hidden, id));
    }
  }

  /** Toggling the visibility of a listed item keeps the normal form, and toggling twice restores the set of hidden items. */
  lemma ToggleKeepsNormal(ui: Ui, id: Id)
    requires Normal(ui) && Listed(ui.layout, id)
    ensures Normal(ui.(layout := Toggled(ui.layout, id)))
    ensures forall x :: x in Toggled(Toggled(ui.layout, id), id).hidden <==> x in ui.layout.hidden
  {
    if id in ui.layout.hidden {
      ShowKeepsNormal(ui, id);
      DroppedKeepsDistinct(ui.layout.hidden, id);
    } else {
      HideKeepsNormal(ui, id);
      DroppedUndoesAppend(ui.layout.hidden, id);
    }
  }

  lemma {:induction false} DroppedUndoesAppend(ids: seq<Id>, id: Id)
    requires id !in ids
    ensures Dropped(ids + [id], id) == ids
  {
    if ids == [] {
      assert [id][1..] == [];
    } else {
      DroppedUndoesAppend(ids[1..], id);
      assert (ids + [id])[1..] == ids[1..] + [id];
    }
  }

  // ------------------------------------------------------------------ moving an item

  predicate IsRight(zone: Zone) { zone.RightTop? || zone.RightBottom? }

  /** A zone without the item, and with the item at its end if this is the target. */
  function ZoneAfterMove(ids: seq<Id>, id: Id, isTarget: bool): seq<Id> {
    Dropped(ids, id) + if isTarget then [id] else []
  }

  function MovedLayout(l: Layout, id: Id, target: Zone): Layout {
    l.(leftTop := ZoneAfterMove(l.leftTop, id, target.LeftTop?), leftBottom := ZoneAfterMove(l.leftBottom, id, target.LeftBottom?),
       rightTop := ZoneAfterMove(l.rightTop, id, target.RightTop?), rightBottom := ZoneAfterMove(l.rightBottom, id, target.RightBottom?))
  }

  function Deactivated(active: Option<Id>, id: Id): Option<Id> { if active == Some(id) then None else active }

  function Moved(ui: Ui, id: Id, target: Zone): Ui {
    var ui1 := ui.(layout := MovedLayout(ui.layout, id, target));
    if IsRight(target) then ui1.(activeLeft := Deactivated(ui.activeLeft, id), leftOpen := Dropped(ui.leftOpen, id))
    else ui1.(activeRight := Deactivated(ui.activeRight, id), rightOpen := Dropped(ui.rightOpen, id))
  }

  lemma ZoneAfterMoveTimes(ids: seq<Id>, id: Id, isTarget: bool, x: Id)
    ensures Times(ZoneAfterMove(ids, id, isTarget), x) == if x == id then (if isTarget then 1 else 0) else Times(ids, x)
    ensures x in ZoneAfterMove(ids, id, isTarget) <==> if x == id then isTarget else x in ids
  {
    TimesDropped(ids, id, x);
    if isTarget {
      TimesAppend(Dropped(ids, id), id, x);
    } else {
      assert Dropped(ids, id) + [] == Dropped(ids, id);
    }
  }

  /** The same, summed over the zones of any layout `m` that differs from `l` in this way. */
  lemma MovedSum(l: Layout, m: Layout, id: Id, target: Zone, x: Id)
    requires Times(m.leftTop, x) == if x == id then (if target.LeftTop? then 1 else 0) else Times(l.leftTop, x)
    requires Times(m.leftBottom, x) == if x == id then (if target.LeftBottom? then 1 else 0) else Times(l.leftBottom, x)
    requires Times(m.rightTop, x) == if x == id then (if target.RightTop? then 1 else 0) else Times(l.rightTop, x)
    requires Times(m.rightBottom, x) == if x == id then (if target.RightBottom? then 1 else 0) else Times(l.rightBottom, x)
    ensures Occurrences(m, x) == if x == id then 1 else Occurrences(l, x)
    ensures OnLeft(m, x) <==> if x == id then !IsRight(target) else OnLeft(l, x)
    ensures OnRight(m, x) <==> if x == id then IsRight(target) else OnRight(l, x)
  {
  }

  lemma MovedOccurrences(l: Layout, id: Id, target: Zone, x: Id)
    ensures Occurrences(MovedLayout(l, id, target), x) == if x == id then 1 else Occurrences(l, x)
    ensures OnLeft(MovedLayout(l, id, target), x) <==> if x == id then !IsRight(target) else OnLeft(l, x)
    ensures OnRight(MovedLayout(l, id, target), x) <==> if x == id then IsRight(target) else OnRight(l, x)
  {
    ZoneAfterMoveTimes(l.leftTop, id, target.LeftTop?, x);
    ZoneAfterMoveTimes(l.leftBottom, id, target.LeftBottom?, x);
    ZoneAfterMoveTimes(l.rightTop, id, target.RightTop?, x);
    ZoneAfterMoveTimes(l.rightBottom, id, target.RightBottom?, x);
    MovedSum(l, MovedLayout(l, id, target), id, target, x);
  }

  lemma MovedLayoutIsNormal(l: Layout, id: Id, target: Zone)
    requires LayoutNormal(l) && Listed(l, id)
    ensures LayoutNormal(MovedLayout(l, id, target))
  {
    var m := MovedLayout(l, id, target);
    forall x ensures Occurrences(m, x) <= 1 && (Listed(m, x) <==> Listed(l, x)) {
      MovedOccurrences(l, id, target, x);
    }
  }

  lemma DroppedSideIsNormal(was: Id -> bool, now: Id -> bool, open: seq<Id>, active: Option<Id>, id: Id)
    requires SideNormal(was, open, active) && forall x :: x != id && was(x) ==> now(x)
    ensures SideNormal(now, Dropped(open, id), Deactivated(active, id))
  {
    DroppedKeepsDistinct(open, id);
  }

  /** Only the moved item can lose its side. */
  lemma MoveKeepsPanels(l: Layout, switches: Switches, id: Id, target: Zone, x: Id)
    requires x != id || Listed(l, id)
    ensures var m := MovedLayout(l, id, target);
            && (LeftOf(l, switches)(x) && !(x == id && IsRight(target)) ==> LeftOf(m, switches)(x))
            && (RightOf(l, switches)(x) && !(x == id && !IsRight(target)) ==> RightOf(m, switches)(x))
  {
    MovedOccurrences(l, id, target, x);
  }

  lemma MoveToRightKeepsSides(ui: Ui, id: Id, target: Zone)
    requires Normal(ui) && Listed(ui.layout, id) && IsRight(target)
    ensures var m := MovedLayout(ui.layout, id, target);
            && SideNormal(LeftOf(m, ui.switches), Dropped(ui.leftOpen, id), Deactivated(ui.activeLeft, id))
            && SideNormal(RightOf(m, ui.switches), ui.rightOpen, ui.activeRight)
  {
    var left, right := LeftOf(ui.layout, ui.switches), RightOf(ui.layout, ui.switches);
    var m := MovedLayout(ui.layout, id, target);
    var left', right' := LeftOf(m, ui.switches), RightOf(m, ui.switches);
    forall x ensures (x != id && left(x) ==> left'(x)) && (right(x) ==> right'(x)) {
      MoveKeepsPanels(ui.layout, ui.switches, id, target, x);
    }
    DroppedSideIsNormal(left, left', ui.leftOpen, ui.activeLeft, id);
    SideCarriesOver(right, right', ui.rightOpen, ui.activeRight);
  }

  lemma MoveToLeftKeepsSides(ui: Ui, id: Id, target: Zone)
    requires Normal(ui) && Listed(ui.layout, id) && !IsRight(target)
    ensures var m := MovedLayout(ui.layout, id, target);
            && SideNormal(LeftOf(m, ui.switches), ui.leftOpen, ui.activeLeft)
            && SideNormal(RightOf(m, ui.switches), Dropped(ui.rightOpen, id), Deactivated(ui.activeRight, id))
  {
    var left, right := LeftOf(ui.layout, ui.switches), RightOf(ui.layout, ui.switches);
    var m := MovedLayout(ui.layout, id, target);
    var left', right' := LeftOf(m, ui.switches), RightOf(m, ui.switches);
    forall x ensures (left(x) ==> left'(x)) && (x != id && right(x) ==> right'(x)) {
      MoveKeepsPanels(ui.layout, ui.switches, id, target, x);
    }
    SideCarriesOver(left, left', ui.leftOpen, ui.activeLeft);
    DroppedSideIsNormal(right, right', ui.rightOpen, ui.activeRight, id);
  }

  /** Moving a listed item anywhere keeps the normal form: it ends up in the target zone and is closed on the side it left. */
  lemma MoveKeepsNormal(ui: Ui, id: Id, target: Zone)
    requires Normal(ui) && Listed(ui.layout, id)
    ensures Normal(Moved(ui, id, target))
  {
    MovedLayoutIsNormal(ui.layout, id, target);
    if IsRight(target) {
      MoveToRightKeepsSides(ui, id, target);
    } else {
      MoveToLeftKeepsSides(ui, id, target);
    }
  }

  // ------------------------------------------------------------------ resetting

  function Reset(ui: Ui): Ui {
    var next := ui.(layout := DEFAULT_LAYOUT);
    Update(next, Normalized(next))
  }

  lemma ResetIsNormal(ui: Ui)
    ensures Normal(Reset(ui)) && Reset(ui).layout == DEFAULT_LAYOUT
  {
    var next := ui.(layout := DEFAULT_LAYOUT);
    RepairIsOneStepFixpoint(next);
    PatchIsRepair(next);
    DefaultLayoutIsNormal();
    NormalLayoutIsKept(DEFAULT_LAYOUT);
  }

  /** The position of an id in the default layout, zone after zone. */
  function Rank(id: Id): nat {
    match id
    case FileExplorer => 0 case Notes => 1 case Network => 2 case SecurityAuth => 3
    case SyncBackupHistory => 4 case Settings => 5
    case SavedConnections => 6 case AiAssistant => 7 case ActiveSessions => 8 case CommandHistory => 9
    case ResourceMonitor => 10 case GpuMonitor => 11 case AscendNpuMonitor => 12 case ProcessManager => 13 case DockerManager => 14
    case QuickCmdBar => 15 case SerialSend => 16 case Recording => 17 case Lock => 18
    case FileTransfer => 19 case Other(_) => 20
  }

  lemma {:induction false} RankedFromIsDistinct(ids: seq<Id>, start: nat, x: Id)
    requires forall i :: 0 <= i < |ids| ==> Rank(ids[i]) == start + i
    ensures Times(ids, x) <= 1 && (Times(ids, x) == 1 ==> start <= Rank(x) < start + |ids|)
  {
    if ids != [] {
      RankedFromIsDistinct(ids[1..], start + 1, x);
      TimesSplit(ids, x);
    }
  }

  /** A list that holds the default ids from `start` on. */
  ghost predicate Ranked(ids: seq<Id>, start: nat, end: nat) {
    |ids| == end - start && forall i :: 0 <= i < |ids| ==> Rank(ids[i]) == start + i
  }

  lemma RankedOccursOnce(layout: Layout, x: Id)
    requires Ranked(layout.leftTop, 0, 4) && Ranked(layout.leftBottom, 4, 6)
    requires Ranked(layout.rightTop, 6, 15) && Ranked(layout.rightBottom, 15, 19)
    ensures Occurrences(layout, x) <= if Rank(x) < 19 then 1 else 0
  {
    RankedFromIsDistinct(layout.leftTop, 0, x);
    RankedFromIsDistinct(layout.leftBottom, 4, x);
    RankedFromIsDistinct(layout.rightTop, 6, x);
    RankedFromIsDistinct(layout.rightBottom, 15, x);
  }

  lemma DefaultIsRanked()
    ensures Ranked(DEFAULT_LAYOUT.leftTop, 0, 4) && Ranked(DEFAULT_LAYOUT.leftBottom, 4, 6)
    ensures Ranked(DEFAULT_LAYOUT.rightTop, 6, 15) && Ranked(DEFAULT_LAYOUT.rightBottom, 15, 19)
  {
  }

  lemma DefaultZonesHoldRequired(x: Id)
    requires x in REQUIRED
    ensures if x == Notes then x in DEFAULT_LAYOUT.leftTop
            else if x == SyncBackupHistory then x in DEFAULT_LAYOUT.leftBottom
            else if x == SerialSend || x == Recording then x in DEFAULT_LAYOUT.rightBottom
            else x in DEFAULT_LAYOUT.rightTop
  {
    var l := DEFAULT_LAYOUT;
    if x == Notes { assert l.leftTop[1] == x; }
    else if x == SyncBackupHistory { assert l.leftBottom[0] == x; }
    else if x == SerialSend { assert l.rightBottom[1] == x; }
    else if x == Recording { assert l.rightBottom[2] == x; }
    else if x == AiAssistant { assert l.rightTop[1] == x; }
    else { assert l.rightTop[Rank(x) - 6] == x; }
  }

  lemma DefaultListsRequired(x: Id)
    requires x in REQUIRED
    ensures Listed(DEFAULT_LAYOUT, x)
  {
    DefaultZonesHoldRequired(x);
  }

  lemma NormalFromParts(layout: Layout)
    requires Ranked(layout.leftTop, 0, 4) && Ranked(layout.leftBottom, 4, 6)
    requires Ranked(layout.rightTop, 6, 15) && Ranked(layout.rightBottom, 15, 19)
    requires forall x :: x in REQUIRED ==> Listed(layout, x)
    requires layout.hidden == []
    ensures LayoutNormal(layout)
  {
    forall x ensures Occurrences(layout, x) <= 1 {
      RankedOccursOnce(layout, x);
    }
    RetiredIsNotRanked(layout);
    NormalWithHidden(layout, []);
  }

  lemma RetiredIsNotRanked(layout: Layout)
    requires Ranked(layout.leftTop, 0, 4) && Ranked(layout.leftBottom, 4, 6)
    requires Ranked(layout.rightTop, 6, 15) && Ranked(layout.rightBottom, 15, 19)
    ensures !Listed(layout, FileTransfer)
  {
    RankedOccursOnce(layout, FileTransfer);
    ListedIffOccurs(layout, FileTransfer);
  }

  lemma DefaultLayoutIsNormal()
    ensures LayoutNormal(DEFAULT_LAYOUT)
  {
    DefaultIsRanked();
    forall x | x in REQUIRED ensures Listed(DEFAULT_LAYOUT, x) {
      DefaultListsRequired(x);
    }
    NormalFromParts(DEFAULT_LAYOUT);
  }
}
