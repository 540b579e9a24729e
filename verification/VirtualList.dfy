/** Which items of a long list are rendered (src/hooks/useVirtualList.ts). */
module VirtualList {
  import opened Text

  datatype VirtualItem<T> = VirtualItem(item: T, index: nat)

  datatype Window<T> = Window(visible: seq<VirtualItem<T>>, paddingTop: real, paddingBottom: real)

  function Sum(heights: seq<real>): real {
    if heights == [] then 0.0 else Sum(heights[..|heights| - 1]) + heights[|heights| - 1]
  }

  ghost predicate NonNegative(heights: seq<real>) { forall i :: 0 <= i < |heights| ==> heights[i] >= 0.0 }

  ghost predicate Sorted(values: seq<real>) { forall i, j :: 0 <= i <= j < |values| ==> values[i] <= values[j] }

  /** `offsets[i]` is where item `i` starts; the last entry is the total height. */
  ghost predicate AreOffsets(offsets: seq<real>, heights: seq<real>) {
    |offsets| == |heights| + 1 && forall i :: 0 <= i <= |heights| ==> offsets[i] == Sum(heights[..i])
  }

  ghost function Offsets(heights: seq<real>): (offsets: seq<real>)
    ensures AreOffsets(offsets, heights)
  {
    seq(|heights| + 1, i requires 0 <= i <= |heights| => Sum(heights[..i]))
  }

  function HeightOf<T>(items: seq<T>, i: nat, itemHeight: real, getItemHeight: Option<(T, nat) -> real>): real
    requires i < |items|
  {
    if getItemHeight.Some? then getItemHeight.value(items[i], i) else itemHeight
  }

  function Heights<T>(items: seq<T>, itemHeight: real, getItemHeight: Option<(T, nat) -> real>): (heights: seq<real>)
    ensures |heights| == |items|
  {
    seq(|items|, i requires 0 <= i < |items| => HeightOf(items, i, itemHeight, getItemHeight))
  }

  method ItemOffsets<T>(items: seq<T>, itemHeight: real, getItemHeight: Option<(T, nat) -> real>) returns (offsets: seq<real>)
    ensures AreOffsets(offsets, Heights(items, itemHeight, getItemHeight))
  {
    ghost var heights := Heights(items, itemHeight, getItemHeight);
    offsets := [0.0];
    for index := 0 to |items|
      invariant |offsets| == index + 1
      invariant forall i :: 0 <= i <= index ==> offsets[i] == Sum(heights[..i])
    {
      assert heights[..index + 1][..index] == heights[..index];
      offsets := offsets + [offsets[index] + HeightOf(items, index, itemHeight, getItemHeight)];
    }
  }

  lemma {:induction false} SumSplits(a: seq<real>, b: seq<real>)
    ensures Sum(a + b) == Sum(a) + Sum(b)
    decreases |b|
  {
    if b == [] {
      assert a + b == a;
    } else {
      SumSplits(a, b[..|b| - 1]);
      assert (a + b)[..|a + b| - 1] == a + b[..|b| - 1];
    }
  }

  lemma {:induction false} SumIsNonNegative(heights: seq<real>)
    requires NonNegative(heights)
    ensures Sum(heights) >= 0.0
  {
    if heights != [] { SumIsNonNegative(heights[..|heights| - 1]); }
  }

  lemma OffsetsAreSorted(offsets: seq<real>, heights: seq<real>)
    requires AreOffsets(offsets, heights) && NonNegative(heights)
    ensures Sorted(offsets)
  {
    forall i, j | 0 <= i <= j < |offsets| ensures offsets[i] <= offsets[j] {
      assert heights[..j] == heights[..i] + heights[i..j];
      SumSplits(heights[..i], heights[i..j]);
      SumIsNonNegative(heights[i..j]);
    }
  }

  /** Every item takes up its own height, or the common one if items have none of their own. */
  lemma ItemsTakeTheirHeight<T>(items: seq<T>, itemHeight: real, getItemHeight: Option<(T, nat) -> real>, i: nat)
    requires i < |items|
    ensures var offsets := Offsets(Heights(items, itemHeight, getItemHeight));
            && offsets[0] == 0.0
            && offsets[i + 1] - offsets[i] == match getItemHeight case Some(height) => height(items[i], i) case None => itemHeight
  {
    var heights := Heights(items, itemHeight, getItemHeight);
    assert heights[..i + 1][..i] == heights[..i];
  }

  /** With a common height, item `i` starts at `i` times that height. */
  lemma {:induction false} CommonHeightOffsets<T>(items: seq<T>, itemHeight: real, i: nat)
    requires i <= |items|
    ensures Offsets(Heights(items, itemHeight, None))[i] == i as real * itemHeight
  {
    if i > 0 {
      CommonHeightOffsets(items, itemHeight, i - 1);
      ItemsTakeTheirHeight(items, itemHeight, None, i - 1);
    } else {
      assert Heights(items, itemHeight, None)[..0] == [];
    }
  }

  // ------------------------------------------------------------------ the binary searches

  method LowerBound(values: seq<real>, target: real) returns (left: nat)
    requires Sorted(values)
    ensures left <= |values|
    ensures forall i :: 0 <= i < |values| ==> (values[i] < target <==> i < left)
  {
    left := 0;
    var right := |values|;
    while left < right
      invariant left <= right <= |values|
      invariant forall i :: 0 <= i < left ==> values[i] < target
      invariant forall i :: right <= i < |values| ==> values[i] >= target
    {
      var middle := (left + right) / 2;
      if values[middle] < target { left := middle + 1; } else { right := middle; }
    }
  }

  method UpperBound(values: seq<real>, target: real) returns (left: nat)
    requires Sorted(values)
    ensures left <= |values|
    ensures forall i :: 0 <= i < |values| ==> (values[i] <= target <==> i < left)
  {
    left := 0;
    var right := |values|;
    while left < right
      invariant left <= right <= |values|
      invariant forall i :: 0 <= i < left ==> values[i] <= target
      invariant forall i :: right <= i < |values| ==> values[i] > target
    {
      var middle := (left + right) / 2;
      if values[middle] <= target { left := middle + 1; } else { right := middle; }
    }
  }

  // ------------------------------------------------------------------ the window

  /** Item `i` has a part strictly inside the viewport. */
  predicate Intersects(offsets: seq<real>, top: real, bottom: real, i: nat)
    requires i + 1 < |offsets|
  {
    offsets[i] < bottom && top < offsets[i + 1]
  }

  /** No item `overscan` places further down ends above the viewport, and none `overscan` places further up starts below it. */
  predicate Wanted(offsets: seq<real>, top: real, bottom: real, overscan: nat, i: nat)
    requires i + 1 < |offsets|
  {
    && (i + overscan + 1 < |offsets| ==> top < offsets[i + overscan + 1])
    && (overscan <= i ==> offsets[i - overscan] < bottom)
  }

  /** The items of the range are exactly the wanted ones. */
  ghost predicate IsWantedRange(offsets: seq<real>, top: real, bottom: real, overscan: nat, start: nat, end: nat) {
    forall i :: 0 <= i < |offsets| - 1 ==> (start <= i < end <==> Wanted(offsets, top, bottom, overscan, i))
  }

  function Min(a: int, b: int): int { if a < b then a else b }

  /** An unmeasured viewport counts as ten items high. */
  function Extent(viewportHeight: real, itemHeight: real): real {
    if viewportHeight > 0.0 then viewportHeight else itemHeight * 10.0
  }

  method Range(offsets: seq<real>, top: real, bottom: real, overscan: nat) returns (start: nat, end: nat)
    requires |offsets| > 1 && Sorted(offsets)
    ensures start < |offsets| && end < |offsets| && (top < bottom ==> start <= end)
    ensures IsWantedRange(offsets, top, bottom, overscan, start, end)
  {
    var first := UpperBound(offsets, top);
    var startIndex := if first > 0 then first - 1 else 0;
    start := if startIndex > overscan then startIndex - overscan else 0;
    var last := LowerBound(offsets, bottom);
    end := Min(|offsets| - 1, last + overscan);
    assert top < bottom && last < |offsets| ==> offsets[last] > top;
    forall i | 0 <= i < |offsets| - 1
      ensures start <= i < end <==> Wanted(offsets, top, bottom, overscan, i)
    {
      assert start <= i <==> (i + overscan + 1 < |offsets| ==> top < offsets[i + overscan + 1]);
      assert i < end <==> (overscan <= i ==> offsets[i - overscan] < bottom);
    }
  }

  /** The items from `start` up to `end` with their indices; none when `start` is not before `end`. */
  ghost predicate IsSlice<T>(visible: seq<VirtualItem<T>>, items: seq<T>, start: nat, end: nat) {
    && start <= |items| && end <= |items| && |visible| == (if start < end then end - start else 0)
    && forall k :: 0 <= k < |visible| ==> visible[k] == VirtualItem(items[start + k], start + k)
  }

  method Slice<T>(items: seq<T>, start: nat, end: nat) returns (visible: seq<VirtualItem<T>>)
    requires start <= |items| && end <= |items|
    ensures IsSlice(visible, items, start, end)
  {
    visible := [];
    var i := start;
    while i < end
      invariant start <= i && (i <= end || i == start) && |visible| == i - start
      invariant forall k :: 0 <= k < |visible| ==> visible[k] == VirtualItem(items[start + k], start + k)
    {
      visible := visible + [VirtualItem(items[i], i)];
      i := i + 1;
    }
  }

  /**
   * The rendered items are those of one index range, namely the wanted ones, and the paddings are the heights before its start and
   * after its end. With a viewport of some height the start is not after the end.
   */
  method ComputeWindow<T>(items: seq<T>, itemHeight: real, getItemHeight: Option<(T, nat) -> real>, overscan: nat,
                          scrollTop: real, viewportHeight: real)
    returns (window: Window<T>, start: nat, end: nat)
    requires NonNegative(Heights(items, itemHeight, getItemHeight))
    ensures IsSlice(window.visible, items, start, end) && (viewportHeight > 0.0 || itemHeight > 0.0 ==> start <= end)
    ensures var heights := Heights(items, itemHeight, getItemHeight);
            window.paddingTop == Sum(heights[..start]) && window.paddingBottom == Sum(heights[end..])
    ensures IsWantedRange(Offsets(Heights(items, itemHeight, getItemHeight)), scrollTop,
                          scrollTop + (if viewportHeight > 0.0 then viewportHeight else 10.0 * itemHeight), overscan, start, end)
  {
    ghost var heights := Heights(items, itemHeight, getItemHeight);
    if |items| == 0 {
      assert heights == [];
      return Window([], 0.0, 0.0), 0, 0;
    }
    var offsets := ItemOffsets(items, itemHeight, getItemHeight);
    OffsetsAreSorted(offsets, heights);
    var height := Extent(viewportHeight, itemHeight);
    start, end := Range(offsets, scrollTop, scrollTop + height, overscan);
    var visible := Slice(items, start, end);
    var above, below := Paddings(offsets, start, end, heights);
    window := Window(visible, above, below);
    assert offsets == Offsets(heights);
  }

  method Paddings(offsets: seq<real>, start: nat, end: nat, ghost heights: seq<real>) returns (above: real, below: real)
    requires AreOffsets(offsets, heights) && NonNegative(heights) && start < |offsets| && end < |offsets|
    ensures above == Sum(heights[..start]) && below == Sum(heights[end..])
  {
    var totalHeight := offsets[|offsets| - 1];
    SumFrom(offsets, heights, end);
    above, below := offsets[start], totalHeight - offsets[end];
    if below < 0.0 { below := 0.0; }
  }

  lemma SumFrom(offsets: seq<real>, heights: seq<real>, k: nat)
    requires AreOffsets(offsets, heights) && NonNegative(heights) && k <= |heights|
    ensures offsets[|heights|] - offsets[k] == Sum(heights[k..]) >= 0.0
  {
    assert heights == heights[..k] + heights[k..] && heights[..|heights|] == heights;
    SumSplits(heights[..k], heights[k..]);
    SumIsNonNegative(heights[k..]);
  }

  // ------------------------------------------------------------------ what the window is good for

  /** Every item that intersects the viewport is wanted, whatever the overscan; without overscan, no other one is. */
  lemma IntersectingIsWanted(offsets: seq<real>, top: real, bottom: real, overscan: nat, i: nat)
    requires Sorted(offsets) && i + 1 < |offsets|
    ensures Intersects(offsets, top, bottom, i) ==> Wanted(offsets, top, bottom, overscan, i)
    ensures Wanted(offsets, top, bottom, 0, i) <==> Intersects(offsets, top, bottom, i)
  {
    if Intersects(offsets, top, bottom, i) {
      if i + overscan + 1 < |offsets| { assert offsets[i + 1] <= offsets[i + overscan + 1]; }
      if overscan <= i { assert offsets[i - overscan] <= offsets[i]; }
    }
  }

  /** With a common height the wanted items are told by multiples of it against the viewport's edges, overscan included. */
  lemma CommonHeightWindow<T>(items: seq<T>, itemHeight: real, top: real, bottom: real, overscan: nat, i: nat)
    requires i < |items|
    ensures Wanted(Offsets(Heights(items, itemHeight, None)), top, bottom, overscan, i)
       <==> && (i + overscan < |items| ==> top < (i + overscan + 1) as real * itemHeight)
            && (overscan <= i ==> (i - overscan) as real * itemHeight < bottom)
  {
    if i + overscan < |items| { CommonHeightOffsets(items, itemHeight, i + overscan + 1); }
    if overscan <= i { CommonHeightOffsets(items, itemHeight, i - overscan); }
  }

  /** The rendered heights of a range that may be empty. */
  function Rendered(heights: seq<real>, start: nat, end: nat): real
    requires start <= |heights| && end <= |heights|
  {
    if start < end then Sum(heights[start..end]) else 0.0
  }

  /**
   * Top padding, rendered heights and bottom padding add up to the total height if and only if no height lies between the end and
   * the start of the range, in particular when the start is not after the end.
   */
  lemma PaddingsFillUp(heights: seq<real>, start: nat, end: nat)
    requires start <= |heights| && end <= |heights|
    ensures Sum(heights[..start]) + Rendered(heights, start, end) + Sum(heights[end..]) == Sum(heights)
       <==> end >= start || Sum(heights[end..start]) == 0.0
  {
    if start < end {
      RangeFillsUp(heights, start, end);
    } else {
      GapCountsTwice(heights, end, start);
      if start == end { assert heights[end..start] == []; }
    }
  }

  /** Paddings that overlap count the heights between them twice. */
  lemma GapCountsTwice(heights: seq<real>, end: nat, start: nat)
    requires end <= start <= |heights|
    ensures Sum(heights[..start]) + Sum(heights[end..]) == Sum(heights) + Sum(heights[end..start])
  {
    var top, gap, bottom := Cut(heights, end, start);
    GapOfParts(top, gap, bottom);
  }

  lemma GapOfParts(top: seq<real>, gap: seq<real>, bottom: seq<real>)
    ensures Sum(top + gap) + Sum(gap + bottom) == Sum(top + gap + bottom) + Sum(gap)
  {
    SumSplits(top, gap);
    SumSplits(gap, bottom);
    ThreeParts(top, gap, bottom);
  }

  lemma RangeFillsUp(heights: seq<real>, start: nat, end: nat)
    requires start <= end <= |heights|
    ensures Sum(heights[..start]) + Sum(heights[start..end]) + Sum(heights[end..]) == Sum(heights)
  {
    var a, b, c := Cut(heights, start, end);
    ThreeParts(a, b, c);
  }

  lemma Cut<T>(s: seq<T>, i: nat, j: nat) returns (a: seq<T>, b: seq<T>, c: seq<T>)
    requires i <= j <= |s|
    ensures a == s[..i] && b == s[i..j] && c == s[j..] && a + b + c == s && a + b == s[..j] && b + c == s[i..]
  {
    a, b, c := s[..i], s[i..j], s[j..];
  }

  lemma ThreeParts(a: seq<real>, b: seq<real>, c: seq<real>)
    ensures Sum(a) + Sum(b) + Sum(c) == Sum(a + b + c)
  {
    SumSplits(a, b);
    SumSplits(a + b, c);
  }

  /** A wanted item outside the viewport is at most `overscan` places from it: there are no more extra items on either side. */
  lemma ExtrasAreWithinOverscan(offsets: seq<real>, top: real, bottom: real, overscan: nat, i: nat, j: nat)
    requires Sorted(offsets) && i < j && j + 1 < |offsets| && top < bottom
    requires Wanted(offsets, top, bottom, overscan, i) && Wanted(offsets, top, bottom, overscan, j)
    ensures offsets[j + 1] <= top ==> j - i < overscan
    ensures bottom <= offsets[i] ==> j - i < overscan
  {
    if overscan <= j - i {
      assert offsets[i + overscan + 1] <= offsets[j + 1];
      assert offsets[i] <= offsets[j - overscan];
    }
  }

  /** The largest scroll position the clamping effect leaves in place. */
  function MaxScrollTop(total: real, height: real): real { if total - height > 0.0 then total - height else 0.0 }

  lemma {:induction false} SomeItemHolds(offsets: seq<real>, x: real) returns (i: nat)
    requires |offsets| > 1 && offsets[0] <= x < offsets[|offsets| - 1]
    ensures i + 1 < |offsets| && offsets[i] <= x < offsets[i + 1]
  {
    var n := |offsets| - 2;
    if offsets[n] <= x {
      i := n;
    } else {
      i := SomeItemHolds(offsets[..n + 1], x);
    }
  }

  /** At a clamped scroll position of a list with some height, the viewport is never blank. */
  lemma ClampedViewportShowsAnItem(offsets: seq<real>, heights: seq<real>, top: real, height: real) returns (i: nat)
    requires AreOffsets(offsets, heights) && Sum(heights) > 0.0 && height > 0.0
    requires 0.0 <= top <= MaxScrollTop(Sum(heights), height)
    ensures i < |heights| && Intersects(offsets, top, top + height, i)
  {
    assert heights[..|heights|] == heights && offsets[0] == Sum(heights[..0]) == 0.0;
    i := SomeItemHolds(offsets, top);
  }
}
