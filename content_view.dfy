/**
 * HXPageContentView.swift: the paging scroll view of the container and its
 * index/offset/frame conversions.  Only the horizontal geometry the page
 * logic reads is kept.
 */
module ContentView {
  import opened Numerics

  datatype Point = Point(x: real, y: real)

  datatype Rect = Rect(x: real, y: real, width: real, height: real) {
    function MaxX(): real { x + width }
    function MidX(): real { x + width / 2.0 }
  }

  /**
   * The scroll view's state: horizontal contentOffset, bounds size,
   * contentSize width, and whether the user is tracking it or it is
   * decelerating (isTracking || isDecelerating).
   */
  datatype ScrollView = ScrollView(offsetX: real, width: Positive, height: real, contentWidth: real, scrolling: bool)

  /**
   * A bounds width.  The page arithmetic divides by it (`x / bounds.width`,
   * whose `Int(...)` traps on the NaN of 0 / 0), so it is taken positive.
   */
  type Positive = x: real | x > 0.0 witness 1.0

  /** The default argument of calculateIndex(of:): "use the current contentOffset". */
  const CurrentOffset: real := -1.0

  /** Swift's `Int(x)` on a CGFloat: truncation toward zero. */
  function TruncateToInt(x: real): (n: int)
    ensures x >= 0.0 ==> n >= 0 && n as real <= x < n as real + 1.0
    ensures x < 0.0 ==> n <= 0 && n as real - 1.0 < x <= n as real
  {
    if x >= 0.0 then x.Floor else -((-x).Floor)
  }

  /**
   * The left edge of page `index` for pages `width` wide: `CGFloat(index) * width`
   * (PageOffsetIsProduct), written as a sum of widths so that the page
   * arithmetic below stays linear.
   */
  function PageOffset(index: int, width: real): real
    decreases if index < 0 then -index else index
  {
    if index == 0 then 0.0
    else if index > 0 then PageOffset(index - 1, width) + width
    else PageOffset(index + 1, width) - width
  }

  lemma {:induction false} PageOffsetIsProduct(index: int, width: real)
    ensures PageOffset(index, width) == index as real * width
    decreases if index < 0 then -index else index
  {
    if index > 0 {
      PageOffsetIsProduct(index - 1, width);
      assert (index - 1) as real * width + width == index as real * width;
    } else if index < 0 {
      PageOffsetIsProduct(index + 1, width);
      assert (index + 1) as real * width - width == index as real * width;
    }
  }

  /** The next page starts one width further on. */
  lemma PageOffsetStep(index: int, width: real)
    ensures PageOffset(index + 1, width) == PageOffset(index, width) + width
  {
  }

  /** A later page starts at least one width after an earlier one. */
  lemma {:induction false} PageOffsetMonotone(i: int, j: int, width: Positive)
    requires i < j
    ensures PageOffset(i, width) + width <= PageOffset(j, width)
    decreases j - i
  {
    PageOffsetStep(j - 1, width);
    if i < j - 1 {
      PageOffsetMonotone(i, j - 1, width);
    }
  }

  lemma PageOffsetNonNegative(index: nat, width: Positive)
    ensures PageOffset(index, width) >= 0.0
  {
    if index > 0 {
      PageOffsetMonotone(0, index, width);
    }
  }

  /** The start of page `index` lies `index` widths into the content. */
  lemma PageOffsetRatio(index: int, width: Positive)
    ensures PageOffset(index, width) / width == index as real
  {
    PageOffsetIsProduct(index, width);
    assert (index as real * width) / width == index as real;
  }

  /** For q * w == x with w > 0, r <= q gives r * w <= x. */
  lemma ScaleLowerBound(q: real, x: real, w: real, r: real)
    requires w > 0.0 && q * w == x && r <= q
    ensures r * w <= x
  {
    MulNonNegative(q - r, w);
    assert (q - r) * w == x - r * w;
  }

  /** For q * w == x with w > 0, q < r + 1 gives x < r * w + w. */
  lemma ScaleUpperBound(q: real, x: real, w: real, r: real)
    requires w > 0.0 && q * w == x && q < r + 1.0
    ensures x < r * w + w
  {
    var a := r + 1.0 - q;
    MulPositive(a, w);
    assert a * w == r * w + w - q * w;
  }

  /** From index <= x / w < index + 1 with w > 0 follows that page index's span holds x. */
  lemma ScaleBracket(x: real, w: Positive, index: int)
    requires index as real <= x / w < index as real + 1.0
    ensures PageOffset(index, w) <= x < PageOffset(index, w) + w
  {
    ScaleLowerBound(x / w, x, w, index as real);
    ScaleUpperBound(x / w, x, w, index as real);
    PageOffsetIsProduct(index, w);
  }

  /**
   * calculateIndex(of:): the page under the offset `contentOffsetX` (or under
   * the current contentOffset when the argument is the default -1), never
   * negative.  For a non-negative offset this is the page whose span
   * [PageOffset(index), PageOffset(index) + width) holds the offset.
   */
  function CalculateIndex(view: ScrollView, contentOffsetX: real): (index: nat)
    ensures var x := if contentOffsetX == CurrentOffset then view.offsetX else contentOffsetX;
      && (x >= 0.0 ==> PageOffset(index, view.width) <= x < PageOffset(index, view.width) + view.width)
      && (x < view.width ==> index == 0)
  {
    var x := if contentOffsetX == CurrentOffset then view.offsetX else contentOffsetX;
    var i := TruncateToInt(x / view.width);
    if x >= 0.0 then
      ScaleBracket(x, view.width, i);
      if i >= 1 then
        PageOffsetMonotone(0, i, view.width);
        i
      else
        i
    else
      0
  }

  /**
   * calculateContentOffset(with:): the page's left edge clamped below at 0
   * and, when the content size is known (positive), above at the last
   * page's offset contentWidth - width.
   */
  function CalculateContentOffset(view: ScrollView, index: int): (p: Point)
    ensures p.y == 0.0
    ensures var raw := PageOffset(index, view.width);
      && (0.0 <= raw && (view.contentWidth <= 0.0 || raw <= view.contentWidth - view.width) ==> p.x == raw)
      && (raw < 0.0 && (view.contentWidth <= 0.0 || view.contentWidth >= view.width) ==> p.x == 0.0)
      && (raw < 0.0 && 0.0 < view.contentWidth < view.width ==> p.x == view.contentWidth - view.width)
      && (view.contentWidth > 0.0 ==> p.x <= view.contentWidth - view.width)
      && (view.contentWidth > 0.0 && raw > view.contentWidth - view.width ==> p.x == view.contentWidth - view.width)
      && (view.contentWidth <= 0.0 || view.contentWidth >= view.width ==> p.x >= 0.0)
  {
    var raw := PageOffset(index, view.width);
    var low := if raw < 0.0 then 0.0 else raw;
    var x := if view.contentWidth > 0.0 && low > view.contentWidth - view.width then view.contentWidth - view.width else low;
    Point(x, 0.0)
  }

  /** calculateVisibleViewControllerFrame(with:): page `index` sits at its page offset, one bounds in size. */
  function CalculateVisibleFrame(view: ScrollView, index: int): (r: Rect)
    ensures r.x == PageOffset(index, view.width) && r.y == 0.0
    ensures r.width == view.width && r.height == view.height
  {
    Rect(PageOffset(index, view.width), 0.0, view.width, view.height)
  }

  /** What setContentOffset(_:animated:) does. */
  datatype OffsetAction =
    | ForwardToCallback(index: nat, animated: bool)  // the installed callback is invoked; the view stays put
    | Scrolled(view: ScrollView)                      // UIScrollView's own behaviour: the offset moves

  /**
   * The override of setContentOffset(_:animated:): with a callback installed
   * the view does not move and the callback gets the page under p.x and the
   * animation flag; without one the offset is set.
   */
  function SetContentOffset(view: ScrollView, p: Point, animated: bool, hasCallback: bool): (a: OffsetAction)
    ensures hasCallback ==> a.ForwardToCallback? && a.animated == animated && a.index == CalculateIndex(view, p.x)
    ensures hasCallback && p.x >= 0.0 && p.x != CurrentOffset ==>
      PageOffset(a.index, view.width) <= p.x < PageOffset(a.index, view.width) + view.width
    ensures !hasCallback ==> a == Scrolled(view.(offsetX := p.x))
  {
    if hasCallback then ForwardToCallback(CalculateIndex(view, p.x), animated)
    else Scrolled(view.(offsetX := p.x))
  }

  /** Only page k's span [PageOffset(k), PageOffset(k) + w) holds the start of page i. */
  lemma OnlyPageSpanHoldsStart(w: Positive, i: int, k: int)
    requires PageOffset(k, w) <= PageOffset(i, w) < PageOffset(k, w) + w
    ensures k == i
  {
    if k < i {
      PageOffsetMonotone(k, i, w);
    } else if k > i {
      PageOffsetMonotone(i, k, w);
    }
  }

  /** A view resting at the start of page i reports page i. */
  lemma IndexAtPageStart(view: ScrollView, i: nat)
    requires view.offsetX == PageOffset(i, view.width)
    ensures CalculateIndex(view, CurrentOffset) == i
  {
    PageOffsetNonNegative(i, view.width);
    OnlyPageSpanHoldsStart(view.width, i, CalculateIndex(view, CurrentOffset));
  }

  /**
   * Round trip: when the content is `count` pages of the bounds width (as
   * the container lays it out), the offset of page i is its left edge and
   * maps back to page i.
   */
  lemma IndexOfPageOffset(view: ScrollView, count: nat, i: int)
    requires view.contentWidth == PageOffset(count, view.width)
    requires 0 <= i < count
    ensures CalculateContentOffset(view, i).x == PageOffset(i, view.width)
    ensures CalculateIndex(view, CalculateContentOffset(view, i).x) == i
  {
    PageOffsetNonNegative(i, view.width);
    PageOffsetMonotone(i, count, view.width);
    OnlyPageSpanHoldsStart(view.width, i, CalculateIndex(view, PageOffset(i, view.width)));
  }

  /** A view laid out with `count` pages and put on page i, as the container does, reports page i. */
  lemma RestingOnPage(view: ScrollView, count: nat, i: int)
    requires view.contentWidth == PageOffset(count, view.width)
    requires 0 <= i < count
    ensures var rest := view.(offsetX := CalculateContentOffset(view, i).x);
      rest.offsetX == PageOffset(i, view.width) && CalculateIndex(rest, CurrentOffset) == i
  {
    IndexOfPageOffset(view, count, i);
    IndexAtPageStart(view.(offsetX := CalculateContentOffset(view, i).x), i);
  }

  /** Frames of two different pages do not overlap. */
  lemma PageFramesDisjoint(view: ScrollView, i: int, j: int)
    requires i < j
    ensures CalculateVisibleFrame(view, i).MaxX() <= CalculateVisibleFrame(view, j).x
  {
    PageOffsetMonotone(i, j, view.width);
  }

  /** A page in range is laid out exactly where the container scrolls to show it. */
  lemma PageFrameAtPageOffset(view: ScrollView, count: nat, i: int)
    requires view.contentWidth == PageOffset(count, view.width)
    requires 0 <= i < count
    ensures CalculateVisibleFrame(view, i).x == CalculateContentOffset(view, i).x
  {
    IndexOfPageOffset(view, count, i);
  }
}
