/** The page-number window of the users list (`getPaginationWindow`):
    page 1, an optional ellipsis, the pages within `delta` of the current
    page, an optional ellipsis, and the last page. */
module Pagination {

  /** One entry of the window: a page number or the `"..."` marker. */
  datatype Item = Page(number: int) | Ellipsis

  function Max(a: int, b: int): int { if a >= b then a else b }

  function Min(a: int, b: int): int { if a <= b then a else b }

  /** `Math.max(1, totalPages)`: there is always at least one page. */
  function TotalOf(totalPages: int): (total: int)
    ensures total >= 1
    ensures totalPages >= 1 ==> total == totalPages
    ensures totalPages < 1 ==> total == 1
  {
    Max(1, totalPages)
  }

  /** `Math.min(Math.max(1, current), total)`: the current page forced into `[1, total]`. */
  function Clamp(current: int, total: int): (cur: int)
    requires total >= 1
    ensures 1 <= cur <= total
    ensures 1 <= current <= total ==> cur == current
    ensures current < 1 ==> cur == 1
    ensures current > total ==> cur == total
  {
    Min(Max(1, current), total)
  }

  /** The consecutive pages `lo, lo + 1, …, hi` (empty when `hi < lo`). */
  function Pages(lo: int, hi: int): (r: seq<Item>)
    ensures |r| == if hi < lo then 0 else hi - lo + 1
    ensures forall k :: 0 <= k < |r| ==> r[k] == Page(lo + k)
  {
    if hi < lo then [] else seq(hi - lo + 1, k => Page(lo + k))
  }

  /** The first page of the middle run. */
  function LeftOf(cur: int, delta: int): int { Max(2, cur - delta) }

  /** The last page of the middle run. */
  function RightOf(cur: int, total: int, delta: int): int { Min(total - 1, cur + delta) }

  /** A single ellipsis when `b` holds, nothing otherwise. */
  function Gap(b: bool): seq<Item> { if b then [Ellipsis] else [] }

  /** Page 1, the run `left..right` with an ellipsis on each side that leaves
      pages out, and the last page. */
  function Framed(left: int, right: int, total: int): seq<Item>
  {
    [Page(1)] + Gap(left > 2) + Pages(left, right) + Gap(right < total - 1) + [Page(total)]
  }

  /** The window as a value: the reference the imperative method is proved against. */
  function Window(current: int, totalPages: int, delta: int): seq<Item>
  {
    var total := TotalOf(totalPages);
    var cur := Clamp(current, total);
    if total <= 7 then Pages(1, total)
    else Framed(LeftOf(cur, delta), RightOf(cur, total, delta), total)
  }

  /** Appending the next page to a run extends it by one. */
  lemma PagesSnoc(lo: int, hi: int)
    requires lo <= hi + 1
    ensures Pages(lo, hi + 1) == Pages(lo, hi) + [Page(hi + 1)]
  {
  }

  /** `getPaginationWindow`: builds the window by pushing onto a local list. */
  method GetPaginationWindow(current: int, totalPages: int, delta: int) returns (range: seq<Item>)
    ensures range == Window(current, totalPages, delta)
  {
    var total := Max(1, totalPages);
    var cur := Min(Max(1, current), total);
    if total <= 7 {
      range := seq(total, k => Page(k + 1));
      assert range == Pages(1, total);
      return;
    }
    range := [];
    var left := Max(2, cur - delta);
    var right := Min(total - 1, cur + delta);
    range := range + [Page(1)];
    if left > 2 {
      range := range + [Ellipsis];
    }
    ghost var head := range;
    assert head == [Page(1)] + Gap(left > 2);
    var i := left;
    while i <= right
      invariant left <= i
      invariant i <= right + 1 || i == left
      invariant range == head + Pages(left, i - 1)
    {
      PagesSnoc(left, i - 1);
      range := range + [Page(i)];
      i := i + 1;
    }
    assert range == head + Pages(left, right);
    if right < total - 1 {
      range := range + [Ellipsis];
    }
    range := range + [Page(total)];
    assert total == TotalOf(totalPages) && cur == Clamp(current, total);
    assert range == Framed(left, right, total);
  }

  // ---------------------------------------------------------------------
  // Shape predicates over a window

  /** Every page number lies in `[1, total]`. */
  ghost predicate PagesWithin(w: seq<Item>, total: int)
  {
    forall k :: 0 <= k < |w| && w[k].Page? ==> 1 <= w[k].number <= total
  }

  /** Page numbers strictly increase from left to right. */
  ghost predicate StrictlyIncreasing(w: seq<Item>)
  {
    forall i, j :: 0 <= i < j < |w| && w[i].Page? && w[j].Page? ==> w[i].number < w[j].number
  }

  /** No two ellipses are adjacent. */
  ghost predicate NoAdjacentEllipses(w: seq<Item>)
  {
    forall k :: 0 <= k < |w| - 1 && w[k].Ellipsis? ==> w[k + 1].Page?
  }

  /** Neighbouring page numbers not separated by an ellipsis differ by exactly one. */
  ghost predicate Consecutive(w: seq<Item>)
  {
    forall k :: 0 <= k < |w| - 1 && w[k].Page? && w[k + 1].Page? ==> w[k + 1].number == w[k].number + 1
  }

  /** Every ellipsis sits between two page numbers and stands for at least one omitted page. */
  ghost predicate EllipsesOmitPages(w: seq<Item>)
  {
    forall k :: 0 <= k < |w| && w[k].Ellipsis? ==>
      0 < k < |w| - 1 && w[k - 1].Page? && w[k + 1].Page? && w[k + 1].number > w[k - 1].number + 1
  }

  // ---------------------------------------------------------------------
  // Properties of the window

  /** The window is never empty, starts at page 1 and ends at the last page. */
  lemma WindowEnds(current: int, totalPages: int, delta: int)
    ensures var w := Window(current, totalPages, delta);
      |w| >= 1 && w[0] == Page(1) && w[|w| - 1] == Page(TotalOf(totalPages))
  {
    var total := TotalOf(totalPages);
    if total <= 7 {
      assert Window(current, totalPages, delta)[total - 1] == Page(total);
    }
  }

  /** With at most seven pages the window lists every page, in order, with no ellipsis. */
  lemma SmallTotalListsAllPages(current: int, totalPages: int, delta: int)
    requires TotalOf(totalPages) <= 7
    ensures var w := Window(current, totalPages, delta);
      |w| == TotalOf(totalPages) && forall k :: 0 <= k < |w| ==> w[k] == Page(k + 1)
  {
  }

  /** An out-of-range current page is clamped first: the window equals the one for the clamped page. */
  lemma OutOfRangeCurrentIsClamped(current: int, totalPages: int, delta: int)
    ensures Window(current, totalPages, delta)
         == Window(Clamp(current, TotalOf(totalPages)), totalPages, delta)
  {
  }

  /** Where everything sits in a framed window: page 1, the leading ellipsis if
      any, the run `left..right`, the trailing ellipsis if any, the last page. */
  lemma FramedShape(left: int, right: int, total: int)
    ensures var w := Framed(left, right, total);
      var m0 := |Gap(left > 2)| + 1;
      var m1 := m0 + |Pages(left, right)|;
      && |w| == m1 + |Gap(right < total - 1)| + 1
      && w[0] == Page(1)
      && (forall k :: 1 <= k < m0 ==> w[k] == Ellipsis)
      && (forall k :: m0 <= k < m1 ==> w[k] == Page(left + (k - m0)))
      && (forall k :: m1 <= k < |w| - 1 ==> w[k] == Ellipsis)
      && w[|w| - 1] == Page(total)
  {
    var w := Framed(left, right, total);
    var a := [Page(1)] + Gap(left > 2);
    var b := a + Pages(left, right);
    var c := b + Gap(right < total - 1);
    assert w == c + [Page(total)];
    assert forall k :: 0 <= k < |a| ==> w[k] == a[k];
    assert forall k :: |a| <= k < |b| ==> w[k] == Pages(left, right)[k - |a|];
    assert forall k :: |b| <= k < |c| ==> w[k] == Ellipsis;
  }

  /** Every page number lies in `[1, total]` and the numbers strictly increase, whatever `delta` is. */
  lemma WindowOrdered(current: int, totalPages: int, delta: int)
    ensures PagesWithin(Window(current, totalPages, delta), TotalOf(totalPages))
    ensures StrictlyIncreasing(Window(current, totalPages, delta))
  {
    var total := TotalOf(totalPages);
    if total > 7 {
      var cur := Clamp(current, total);
      var left, right := LeftOf(cur, delta), RightOf(cur, total, delta);
      FramedShape(left, right, total);
    }
  }

  /** For `delta >= 0` the (clamped) current page is always listed. */
  lemma WindowShowsCurrent(current: int, totalPages: int, delta: int)
    requires delta >= 0
    ensures Page(Clamp(current, TotalOf(totalPages))) in Window(current, totalPages, delta)
  {
    var w := Window(current, totalPages, delta);
    var total := TotalOf(totalPages);
    var cur := Clamp(current, total);
    if total <= 7 {
      assert w[cur - 1] == Page(cur);
    } else {
      var left, right := LeftOf(cur, delta), RightOf(cur, total, delta);
      FramedShape(left, right, total);
      if cur == 1 {
        assert w[0] == Page(cur);
      } else if cur == total {
        assert w[|w| - 1] == Page(cur);
      } else {
        var m0 := |Gap(left > 2)| + 1;
        assert w[m0 + (cur - left)] == Page(cur);
      }
    }
  }

  /** For `delta >= 0` ellipses are never adjacent, unseparated neighbours are
      consecutive pages, and each ellipsis hides at least one page. */
  lemma WindowGapsWellFormed(current: int, totalPages: int, delta: int)
    requires delta >= 0
    ensures NoAdjacentEllipses(Window(current, totalPages, delta))
    ensures Consecutive(Window(current, totalPages, delta))
    ensures EllipsesOmitPages(Window(current, totalPages, delta))
  {
    var total := TotalOf(totalPages);
    if total > 7 {
      var cur := Clamp(current, total);
      var left, right := LeftOf(cur, delta), RightOf(cur, total, delta);
      FramedShape(left, right, total);
      // delta >= 0 puts the current page inside [left - 1, right + 1], so the
      // run is empty only when an ellipsis stands between page 1 and the last page.
      assert left <= right + 1;
      assert left == right + 1 ==> left > 2 || right < total - 1;
    }
  }

  /** With more than seven pages and `delta >= 0` the window has at most
      `2 * delta + 5` entries (nine for the default `delta = 2`). */
  lemma WindowLengthBound(current: int, totalPages: int, delta: int)
    requires TotalOf(totalPages) > 7 && delta >= 0
    ensures |Window(current, totalPages, delta)| <= 2 * delta + 5
  {
  }

  /** The bound on `delta` above is needed: with a negative `delta` the run can
      be empty and the two ellipses end up side by side. */
  lemma NegativeDeltaCanRepeatEllipsis()
    ensures Window(5, 10, -1) == [Page(1), Ellipsis, Ellipsis, Page(10)]
    ensures !NoAdjacentEllipses(Window(5, 10, -1))
  {
    assert Pages(6, 4) == [];
    var w := Window(5, 10, -1);
    assert w == [Page(1), Ellipsis, Ellipsis, Page(10)];
    assert w[1].Ellipsis? && w[2].Ellipsis?;
  }
}
