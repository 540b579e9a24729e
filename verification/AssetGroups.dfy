/** The asset group forest, cycles and dangling parents included (src/lib/assetGroups.ts). */
module AssetGroups {
  import opened Text

  /** Non-empty ids; an absent or empty one is `None`. */
  type Id(==, !new)

  datatype Group = Group(id: Option<Id>, name: string, parent: Option<Id>)
  datatype Segment = Segment(id: Option<Id>, name: string)
  datatype Connection = Connection(title: string, group: Option<Id>)

  type Index = map<Id, Group>

  const ROOT := Segment(None, "assets.root")

  // ------------------------------------------------------------------ the index

  /** The first group of every id. */
  function Indexed(groups: seq<Group>): Index {
    if groups == [] then map[]
    else
      var index, g := Indexed(groups[..|groups| - 1]), groups[|groups| - 1];
      if g.id.None? || g.id.value in index then index else index[g.id.value := g]
  }

  ghost predicate FirstWithId(groups: seq<Group>, id: Id, i: nat) {
    i < |groups| && groups[i].id == Some(id) && forall j :: 0 <= j < i ==> groups[j].id != Some(id)
  }

  /** An id is indexed exactly when some group carries it, and it leads to the first such group. */
  lemma {:induction false} IndexHoldsFirst(groups: seq<Group>, id: Id)
    ensures id !in Indexed(groups) ==> forall i :: 0 <= i < |groups| ==> groups[i].id != Some(id)
    ensures id in Indexed(groups) ==> exists i: nat :: FirstWithId(groups, id, i) && Indexed(groups)[id] == groups[i]
  {
    if groups != [] {
      var n := |groups| - 1;
      IndexHoldsFirst(groups[..n], id);
      if id in Indexed(groups[..n]) {
        var i: nat :| FirstWithId(groups[..n], id, i) && Indexed(groups[..n])[id] == groups[..n][i];
        assert FirstWithId(groups, id, i);
      } else if groups[n].id == Some(id) {
        assert FirstWithId(groups, id, n);
      }
    }
  }

  /** `keys` is the insertion order of the index. */
  ghost predicate Enumerates(keys: seq<Id>, index: Index) { forall x :: x in keys <==> x in index }

  method BuildGroupIndex(groups: seq<Group>) returns (index: Index, keys: seq<Id>)
    ensures index == Indexed(groups) && Enumerates(keys, index)
  {
    index, keys := map[], [];
    for i := 0 to |groups|
      invariant index == Indexed(groups[..i]) && Enumerates(keys, index)
    {
      assert groups[..i + 1][..i] == groups[..i];
      var group := groups[i];
      if group.id.None? || group.id.value in index { continue; }
      index := index[group.id.value := group];
      keys := keys + [group.id.value];
    }
    assert groups[..|groups|] == groups;
  }

  // ------------------------------------------------------------------ ancestors

  /** The ancestor `k` levels up, as long as every group on the way is indexed. */
  function Up(index: Index, id: Id, k: nat): Option<Id> {
    if id !in index then None
    else if k == 0 then Some(id)
    else if index[id].parent.None? then None
    else Up(index, index[id].parent.value, k - 1)
  }

  /** `s` is `g` itself or an ancestor of it. */
  ghost predicate Under(index: Index, g: Id, s: Id) { exists k: nat :: Up(index, g, k) == Some(s) }

  ghost predicate ClosedUpward(index: Index, ids: set<Id>) {
    forall x :: x in ids && x in index && index[x].parent.Some? && index[x].parent.value in index ==> index[x].parent.value in ids
  }

  lemma {:induction false} ClosedHoldsAncestors(index: Index, ids: set<Id>, x: Id, k: nat)
    requires ClosedUpward(index, ids) && x in ids && Up(index, x, k).Some?
    ensures Up(index, x, k).value in ids
  {
    if k > 0 {
      var p := index[x].parent.value;
      assert p in index;
      ClosedHoldsAncestors(index, ids, p, k - 1);
    }
  }

  lemma {:induction false} UpAdds(index: Index, x: Id, j: nat, k: nat)
    requires Up(index, x, j).Some?
    ensures Up(index, x, j + k) == Up(index, Up(index, x, j).value, k)
  {
    if j > 0 {
      UpAdds(index, index[x].parent.value, j - 1, k);
    }
  }

  lemma UnderIsTransitive(index: Index, a: Id, b: Id, c: Id)
    requires Under(index, a, b) && Under(index, b, c)
    ensures Under(index, a, c)
  {
    var j: nat :| Up(index, a, j) == Some(b);
    var k: nat :| Up(index, b, k) == Some(c);
    UpAdds(index, a, j, k);
  }

  // ------------------------------------------------------------------ the breadcrumb path

  /** The walk from a group to its parents: it ends at a missing group or at one met before. */
  function Walk(index: Index, current: Option<Id>, seen: set<Id>): seq<Id>
    decreases |index.Keys - seen|
  {
    if current.None? || current.value in seen || current.value !in index then []
    else
      assert index.Keys - (seen + {current.value}) < index.Keys - seen;
      FewerLeft(index.Keys - (seen + {current.value}), index.Keys - seen);
      [current.value] + Walk(index, index[current.value].parent, seen + {current.value})
  }

  lemma {:induction false} FewerLeft(a: set<Id>, b: set<Id>)
    requires a < b
    ensures |a| < |b|
  {
    assert |b| == |a| + |b - a| by { assert b == a + (b - a); }
    var x :| x in b && x !in a;
    assert x in b - a;
  }

  function Reversed<T>(s: seq<T>): seq<T> { if s == [] then [] else Reversed(s[1..]) + [s[0]] }

  function Segments(index: Index, ids: seq<Id>): seq<Segment>
    requires forall x :: x in ids ==> x in index
  {
    seq(|ids|, i requires 0 <= i < |ids| => Segment(index[ids[i]].id, index[ids[i]].name))
  }

  lemma {:induction false} WalkIsIndexed(index: Index, current: Option<Id>, seen: set<Id>, x: Id)
    requires x in Walk(index, current, seen)
    ensures x in index && x !in seen
    decreases |index.Keys - seen|
  {
    assert index.Keys - (seen + {current.value}) < index.Keys - seen;
    FewerLeft(index.Keys - (seen + {current.value}), index.Keys - seen);
    if x != current.value {
      WalkIsIndexed(index, index[current.value].parent, seen + {current.value}, x);
    }
  }

  /** The ids on the breadcrumb path of a group, from the group up. */
  function PathIds(index: Index, id: Id): (ids: seq<Id>)
    ensures forall x :: x in ids ==> x in index
  {
    assert forall x :: x in Walk(index, Some(id), {}) ==> x in index by {
      forall x | x in Walk(index, Some(id), {}) ensures x in index { WalkIsIndexed(index, Some(id), {}, x); }
    }
    Walk(index, Some(id), {})
  }

  method BuildGroupPath(groups: seq<Group>, selected: Option<Id>) returns (path: seq<Segment>)
    ensures selected.None? ==> path == [ROOT]
    ensures selected.Some? ==>
      var index := Indexed(groups); path == [ROOT] + Reversed(Segments(index, PathIds(index, selected.value)))
  {
    if selected.None? { return [ROOT]; }
    var index, _ := BuildGroupIndex(groups);
    var segments: seq<Segment> := [];
    var seen: set<Id> := {};
    var current := selected;
    ghost var ids: seq<Id> := [];
    while current.Some?
      invariant (forall x :: x in ids ==> x in index) && segments == Segments(index, ids)
      invariant ids + Walk(index, current, seen) == Walk(index, selected, {})
      decreases |index.Keys - seen|, current
    {
      if current.value in seen { break; }
      if current.value !in index { break; }
      WalkStep(ids, index, current.value, seen);
      SegmentsAppend(index, ids, current.value);
      seen := seen + {current.value};
      var group := index[current.value];
      segments := segments + [Segment(group.id, group.name)];
      ids := ids + [current.value];
      current := group.parent;
    }
    assert ids + [] == ids;
    assert ids == PathIds(index, selected.value);
    var reversed := Reverse(segments);
    path := [ROOT] + reversed;
  }

  lemma WalkStep(before: seq<Id>, index: Index, id: Id, seen: set<Id>)
    requires id in index && id !in seen
    ensures before + Walk(index, Some(id), seen) == before + [id] + Walk(index, index[id].parent, seen + {id})
    ensures |index.Keys - (seen + {id})| < |index.Keys - seen|
  {
    FewerLeft(index.Keys - (seen + {id}), index.Keys - seen);
  }

  lemma SegmentsAppend(index: Index, ids: seq<Id>, id: Id)
    requires id in index && forall x :: x in ids ==> x in index
    ensures Segments(index, ids + [id]) == Segments(index, ids) + [Segment(index[id].id, index[id].name)]
  {
  }

  method Reverse<T>(s: seq<T>) returns (r: seq<T>)
    ensures r == Reversed(s)
  {
    r := [];
    for i := 0 to |s|
      invariant Reversed(s[i..]) + r == Reversed(s)
    {
      assert s[i..][1..] == s[i + 1..];
      r := [s[i]] + r;
    }
  }

  lemma {:induction false} WalkHasNoRepeats(index: Index, current: Option<Id>, seen: set<Id>, i: nat, j: nat)
    requires i < j < |Walk(index, current, seen)|
    ensures Walk(index, current, seen)[i] != Walk(index, current, seen)[j]
    decreases |index.Keys - seen|
  {
    FewerLeft(index.Keys - (seen + {current.value}), index.Keys - seen);
    var rest := Walk(index, index[current.value].parent, seen + {current.value});
    if i == 0 {
      WalkIsIndexed(index, index[current.value].parent, seen + {current.value}, rest[j - 1]);
    } else {
      WalkHasNoRepeats(index, index[current.value].parent, seen + {current.value}, i - 1, j - 1);
    }
  }

  /** The path has no repeated id, whatever cycles the parents form. */
  lemma PathHasNoRepeats(index: Index, id: Id, i: nat, j: nat)
    requires i < j < |PathIds(index, id)|
    ensures PathIds(index, id)[i] != PathIds(index, id)[j]
  {
    WalkHasNoRepeats(index, Some(id), {}, i, j);
  }

  /** The `i`-th id of a walk is the `i`-th ancestor of its start. */
  lemma {:induction false} WalkGoesUp(index: Index, id: Id, seen: set<Id>, i: nat)
    requires i < |Walk(index, Some(id), seen)|
    ensures Up(index, id, i) == Some(Walk(index, Some(id), seen)[i])
    decreases i
  {
    if i > 0 {
      assert index[id].parent.Some?;
      WalkGoesUp(index, index[id].parent.value, seen + {id}, i - 1);
    }
  }

  /** A walk loses no parent: the parent of a group on it was met before, is on it, or is missing. */
  lemma {:induction false} WalkKeepsParents(index: Index, current: Option<Id>, seen: set<Id>, x: Id)
    requires x in Walk(index, current, seen) && x in index && index[x].parent.Some? && index[x].parent.value in index
    ensures index[x].parent.value in seen || index[x].parent.value in Walk(index, current, seen)
    decreases |index.Keys - seen|
  {
    FewerLeft(index.Keys - (seen + {current.value}), index.Keys - seen);
    if x != current.value {
      WalkKeepsParents(index, index[current.value].parent, seen + {current.value}, x);
    }
  }

  lemma PathIsClosedUpward(index: Index, id: Id)
    ensures ClosedUpward(index, set x | x in PathIds(index, id))
  {
    var ids := set x | x in PathIds(index, id);
    forall x | x in ids && x in index && index[x].parent.Some? && index[x].parent.value in index
      ensures index[x].parent.value in ids
    {
      WalkKeepsParents(index, Some(id), {}, x);
    }
  }

  /** The path of a group holds exactly the group and its ancestors. */
  lemma PathHoldsAncestors(index: Index, g: Id, s: Id)
    ensures s in PathIds(index, g) <==> Under(index, g, s)
  {
    if s in PathIds(index, g) {
      var i :| 0 <= i < |PathIds(index, g)| && PathIds(index, g)[i] == s;
      WalkGoesUp(index, g, {}, i);
    }
    if Under(index, g, s) {
      var k: nat :| Up(index, g, k) == Some(s);
      PathIsClosedUpward(index, g);
      ClosedHoldsAncestors(index, (set x | x in PathIds(index, g)), g, k);
    }
  }

  lemma {:induction false} ReversedAt<T>(s: seq<T>, i: nat)
    requires i < |s|
    ensures |Reversed(s)| == |s| && Reversed(s)[i] == s[|s| - 1 - i]
  {
    if |s| > 1 {
      ReversedAt(s[1..], if i < |s| - 1 then i else 0);
    } else {
      assert Reversed(s[1..]) == [];
    }
  }

  /** A walk starts at its group, each next group is the parent of the one before, and it ends where the parents end or repeat. */
  lemma {:induction false} WalkClimbs(index: Index, id: Id, seen: set<Id>, i: nat)
    requires i < |Walk(index, Some(id), seen)|
    ensures var ids := Walk(index, Some(id), seen);
            && ids[0] == id && ids[i] in index
            && (i + 1 < |ids| ==> index[ids[i]].parent == Some(ids[i + 1]))
            && (i + 1 == |ids| ==> var p := index[ids[i]].parent; p.None? || p.value !in index || p.value in seen || p.value in ids)
    decreases |Walk(index, Some(id), seen)|
  {
    var ids, parent := Walk(index, Some(id), seen), index[id].parent;
    var rest := Walk(index, parent, seen + {id});
    assert ids == [id] + rest;
    if i > 0 {
      WalkClimbs(index, parent.value, seen + {id}, i - 1);
      assert forall x :: x in rest ==> x in ids;
    } else if |rest| > 0 {
      WalkClimbs(index, parent.value, seen + {id}, 0);
    } else {
      assert parent.Some? && parent.value == id ==> ids[0] == id;
    }
  }

  /**
   * A breadcrumb reads from the root down: the last segment is the selected group, before each group comes its parent, and the topmost
   * group has no parent that is indexed and not on the path itself.
   */
  lemma BreadcrumbReadsDown(index: Index, id: Id, i: nat)
    requires id in index && 1 <= i <= |PathIds(index, id)|
    ensures var ids := PathIds(index, id);
            var path := [ROOT] + Reversed(Segments(index, ids));
            var at := ids[|ids| - i];
            && |path| == |ids| + 1 && path[0] == ROOT && path[i] == Segment(index[at].id, index[at].name)
            && (i == |ids| ==> at == id)
            && (i > 1 ==> index[at].parent == Some(ids[|ids| - i + 1]))
            && (i == 1 ==> var p := index[at].parent; p.None? || p.value !in index || p.value in ids)
  {
    var ids := PathIds(index, id);
    ReversedAt(Segments(index, ids), i - 1);
    WalkClimbs(index, id, {}, |ids| - i);
  }

  // ------------------------------------------------------------------ the descendants

  ghost function Descendants(index: Index, s: Id): (r: set<Id>) { set g | g in index && Under(index, g, s) }

  ghost predicate HasParent(index: Index, g: Id, p: Id) { g in index && p in index && index[g].parent == Some(p) }

  ghost predicate IsChildMap(index: Index, children: map<Id, seq<Id>>, keys: seq<Id>) {
    && (forall p, g :: p in children && g in children[p] ==> g in keys && HasParent(index, g, p))
    && (forall p, g :: g in keys && HasParent(index, g, p) ==> p in children && g in children[p])
  }

  method BuildChildren(index: Index, keys: seq<Id>) returns (children: map<Id, seq<Id>>)
    requires Enumerates(keys, index)
    ensures IsChildMap(index, children, keys)
  {
    children := map[];
    for i := 0 to |keys|
      invariant IsChildMap(index, children, keys[..i])
    {
      assert keys[..i + 1] == keys[..i] + [keys[i]];
      assert keys[i] in keys;
      var parent := index[keys[i]].parent;
      if parent.None? || parent.value !in index { continue; }
      var siblings := if parent.value in children then children[parent.value] else [];
      children := children[parent.value := siblings + [keys[i]]];
    }
    assert keys[..|keys|] == keys;
  }

  /** Everything found lies under the selected group, and a child of a found group is found or waiting. */
  ghost predicate Searching(index: Index, s: Id, found: set<Id>, queue: seq<Id>) {
    && (forall x :: x in found || x in queue ==> x in index && Under(index, x, s))
    && (s in found || s in queue)
    && (forall g, p :: p in found && HasParent(index, g, p) ==> g in found || g in queue)
  }

  lemma ChildIsUnder(index: Index, g: Id, p: Id, s: Id)
    requires HasParent(index, g, p) && Under(index, p, s)
    ensures Under(index, g, s)
  {
    var k: nat :| Up(index, p, k) == Some(s);
    assert Up(index, g, k + 1) == Some(s);
  }

  lemma SearchAdvances(index: Index, s: Id, found: set<Id>, queue: seq<Id>, children: seq<Id>)
    requires queue != [] && Searching(index, s, found, queue)
    requires forall g :: g in children <==> HasParent(index, g, queue[0])
    ensures Searching(index, s, found + {queue[0]}, queue[1..] + children)
    ensures queue[0] in found ==> Searching(index, s, found, queue[1..])
  {
    forall g | g in children ensures g in index && Under(index, g, s) {
      ChildIsUnder(index, g, queue[0], s);
    }
    assert queue == [queue[0]] + queue[1..];
  }

  lemma {:induction false} SearchFinds(index: Index, s: Id, found: set<Id>, g: Id, k: nat)
    requires Searching(index, s, found, []) && Up(index, g, k) == Some(s)
    ensures g in found
  {
    if k > 0 {
      var p := index[g].parent.value;
      SearchFinds(index, s, found, p, k - 1);
      assert HasParent(index, g, p);
    }
  }

  /** An exhausted search has found exactly the descendants. */
  lemma SearchEndsComplete(index: Index, s: Id, found: set<Id>)
    requires Searching(index, s, found, [])
    ensures found == Descendants(index, s)
  {
    forall g | g in Descendants(index, s) ensures g in found {
      var k: nat :| Up(index, g, k) == Some(s);
      SearchFinds(index, s, found, g, k);
    }
  }

  /** The breadth-first search ends on every input and finds exactly the groups under the selected one. */
  method CollectDescendantGroupIds(groups: seq<Group>, selected: Option<Id>) returns (result: set<Id>)
    ensures result == if selected.Some? then Descendants(Indexed(groups), selected.value) else {}
  {
    result := {};
    if selected.None? { return; }
    var s := selected.value;
    var index, keys := BuildGroupIndex(groups);
    if s !in index {
      NothingUnderMissing(index, s);
      return;
    }
    var children := BuildChildren(index, keys);
    var queue := [s];
    assert Up(index, s, 0) == Some(s);
    while queue != []
      invariant Searching(index, s, result, queue)
      decreases |index.Keys - result|, |queue|
    {
      var id := queue[0];
      var next := if id in children then children[id] else [];
      SearchAdvances(index, s, result, queue, next);
      queue := queue[1..];
      if id in result { continue; }
      FewerLeft(index.Keys - (result + {id}), index.Keys - result);
      result := result + {id};
      queue := queue + next;
    }
    SearchEndsComplete(index, s, result);
  }

  lemma {:induction false} UpIsIndexed(index: Index, g: Id, k: nat)
    requires Up(index, g, k).Some?
    ensures Up(index, g, k).value in index
  {
    if k > 0 { UpIsIndexed(index, index[g].parent.value, k - 1); }
  }

  lemma NothingUnderMissing(index: Index, s: Id)
    requires s !in index
    ensures Descendants(index, s) == {}
  {
    forall g | g in index ensures !Under(index, g, s) {
      forall k: nat ensures Up(index, g, k) != Some(s) {
        if Up(index, g, k) == Some(s) { UpIsIndexed(index, g, k); }
      }
    }
  }

  // ------------------------------------------------------------------ the two traversals agree

  /** An indexed group is among the descendants of `s` exactly when `s` lies on its breadcrumb path. */
  lemma DescendantIffOnPath(groups: seq<Group>, s: Id, g: Id)
    requires g in Indexed(groups)
    ensures g in Descendants(Indexed(groups), s) <==> s in PathIds(Indexed(groups), g)
  {
    PathHoldsAncestors(Indexed(groups), g, s);
  }

  /** A descendant's own descendants are descendants too, so groups of one parent cycle have the same ones. */
  lemma DescendantsNest(index: Index, s: Id, g: Id)
    requires g in Descendants(index, s)
    ensures Descendants(index, g) <= Descendants(index, s)
    ensures s in Descendants(index, g) ==> Descendants(index, g) == Descendants(index, s)
  {
    forall x | x in Descendants(index, g) ensures x in Descendants(index, s) {
      UnderIsTransitive(index, x, g, s);
    }
    if s in Descendants(index, g) {
      forall x | x in Descendants(index, s) ensures x in Descendants(index, g) {
        UnderIsTransitive(index, x, s, g);
      }
    }
  }

  // ------------------------------------------------------------------ the connections of a group

  /** The selected group lies on the breadcrumb path of the connection's group. */
  predicate OnPathOf(index: Index, selected: Id, c: Connection) {
    c.group.Some? && c.group.value in index && selected in PathIds(index, c.group.value)
  }

  function InGroups(connections: seq<Connection>, ids: set<Id>): seq<Connection> {
    if connections == [] then []
    else
      var rest := InGroups(connections[..|connections| - 1], ids);
      var c := connections[|connections| - 1];
      if c.group.Some? && c.group.value in ids then rest + [c] else rest
  }

  lemma {:induction false} InGroupsHolds(connections: seq<Connection>, ids: set<Id>, c: Connection)
    ensures multiset(InGroups(connections, ids))[c]
         == if c.group.Some? && c.group.value in ids then multiset(connections)[c] else 0
  {
    if connections != [] {
      InGroupsHolds(connections[..|connections| - 1], ids, c);
      assert connections == connections[..|connections| - 1] + [connections[|connections| - 1]];
    }
  }

  /** The selection keeps the order of the connections. */
  lemma {:induction false} InGroupsAppends(a: seq<Connection>, b: seq<Connection>, ids: set<Id>)
    ensures InGroups(a + b, ids) == InGroups(a, ids) + InGroups(b, ids)
  {
    if b == [] {
      assert a + b == a;
    } else {
      InGroupsAppends(a, b[..|b| - 1], ids);
      assert (a + b)[..|a + b| - 1] == a + b[..|b| - 1];
    }
  }

  /** Without a selection all connections, otherwise, in order, those whose group has the selected one on its path. */
  method GetConnectionsForAssetGroup(connections: seq<Connection>, groups: seq<Group>, selected: Option<Id>)
    returns (result: seq<Connection>)
    ensures selected.None? ==> result == connections
    ensures selected.Some? ==>
      forall c :: multiset(result)[c] == if OnPathOf(Indexed(groups), selected.value, c) then multiset(connections)[c] else 0
    ensures selected.Some? ==> result == InGroups(connections, Descendants(Indexed(groups), selected.value))
  {
    if selected.None? { return connections; }
    var ids := CollectDescendantGroupIds(groups, selected);
    result := [];
    if ids != {} {
      for i := 0 to |connections|
        invariant result == InGroups(connections[..i], ids)
      {
        assert connections[..i + 1][..i] == connections[..i];
        var c := connections[i];
        if c.group.Some? && c.group.value in ids { result := result + [c]; }
      }
      assert connections[..|connections|] == connections;
    } else {
      NoGroupsNoConnections(connections);
    }
    forall c
      ensures multiset(result)[c] == if OnPathOf(Indexed(groups), selected.value, c) then multiset(connections)[c] else 0
    {
      InGroupsHolds(connections, ids, c);
      if c.group.Some? && c.group.value in Indexed(groups) {
        DescendantIffOnPath(groups, selected.value, c.group.value);
      }
    }
  }

  lemma {:induction false} NoGroupsNoConnections(connections: seq<Connection>)
    ensures InGroups(connections, {}) == []
  {
    if connections != [] { NoGroupsNoConnections(connections[..|connections| - 1]); }
  }
}
