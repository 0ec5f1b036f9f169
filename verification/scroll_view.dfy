/**
  The geometry helpers the panel adds to `UIScrollView`: the offset relative
  to the adjusted content inset, the at-top test and its setter, the
  point-in-content test, the content-exceeds-bounds test and the clamp that
  halts vertical scrolling.
 */
module ScrollGeometry {
  import opened Geometry

  /**
    The state of one scroll view that the panel reads or writes.
    `adjustment` is what the view's inset-adjustment behaviour adds to
    `contentInset` (the safe area under `.always`, nothing under `.never`);
    `adjustedContentInset` is their sum. `bounds` is the size of the bounds
    rectangle, whose origin is `offset`.
   */
  datatype ScrollView = ScrollView(
    offset: Point,
    contentInset: Insets,
    adjustment: Insets,
    bounds: Size,
    contentSize: Size,
    bounces: bool,
    showsIndicator: bool)
  {
    function AdjustedInset(): Insets {
      Insets(contentInset.top + adjustment.top,
             contentInset.left + adjustment.left,
             contentInset.bottom + adjustment.bottom,
             contentInset.right + adjustment.right)
    }

    function BoundsRect(): Rect {
      Rect(offset, bounds)
    }
  }

  /** `relativeContentOffset`: the offset measured from the top-left of the scrollable area. */
  function RelativeOffset(s: ScrollView): Point {
    Point(s.offset.x + s.AdjustedInset().left, s.offset.y + s.AdjustedInset().top)
  }

  /**
    The `relativeContentOffset` setter: stores the content offset that the
    getter maps back to `p`, touching nothing else.
   */
  function WithRelativeOffset(s: ScrollView, p: Point): (r: ScrollView)
    ensures RelativeOffset(r) == p
    ensures r.AdjustedInset() == s.AdjustedInset()
    ensures r == s.(offset := r.offset)
  {
    s.(offset := Point(p.x - s.AdjustedInset().left, p.y - s.AdjustedInset().top))
  }

  /** Writing back the relative offset just read leaves the scroll view as it was. */
  lemma WriteBackReadIsIdentity(s: ScrollView)
    ensures WithRelativeOffset(s, RelativeOffset(s)) == s
  {
  }

  /** The two relative-offset writes that agree on the point agree on the whole view. */
  lemma RelativeOffsetDeterminesOffset(s: ScrollView, p: Point, q: Point)
    ensures WithRelativeOffset(s, p) == WithRelativeOffset(s, q) <==> p == q
  {
    if WithRelativeOffset(s, p) == WithRelativeOffset(s, q) {
      assert RelativeOffset(WithRelativeOffset(s, p)) == RelativeOffset(WithRelativeOffset(s, q));
    }
  }

  /**
    `isAtTop`: the content sits at its top edge, within `precision` (the
    size of one screen pixel, `1 / UIScreen.main.scale`), or is bouncing
    above it.
   */
  predicate IsAtTop(s: ScrollView, precision: real) {
    var y := RelativeOffset(s).y;
    y < 0.0 || Abs(y) < precision
  }

  /**
    The `isAtTop` setter: whatever value is assigned, the relative vertical
    offset becomes 0 and the horizontal offset is kept.
   */
  function SetAtTop(s: ScrollView): (r: ScrollView)
    ensures forall precision :: precision > 0.0 ==> IsAtTop(r, precision)
    ensures RelativeOffset(r).y == 0.0
    ensures r.offset.x == s.offset.x
    ensures r.offset.y == -s.AdjustedInset().top
    ensures r == s.(offset := r.offset)
  {
    WithRelativeOffset(s, Point(RelativeOffset(s).x, 0.0))
  }

  /**
    `isPointInScrollContent`: the point (in the scroll view's own
    coordinates) is inside the view's bounds and inside the content
    rectangle that starts at the origin and has the content size.
   */
  predicate IsPointInScrollContent(s: ScrollView, p: Point) {
    Contains(s.BoundsRect(), p) && Contains(Rect(Point(0.0, 0.0), s.contentSize), p)
  }

  /** With a non-negative content size, the content test is the half-open box from the origin. */
  lemma PointInScrollContentBox(s: ScrollView, p: Point)
    requires s.contentSize.width >= 0.0 && s.contentSize.height >= 0.0
    ensures !Contains(s.BoundsRect(), p) ==> !IsPointInScrollContent(s, p)
    ensures Contains(s.BoundsRect(), p) ==>
              (IsPointInScrollContent(s, p) <==>
                 0.0 <= p.x < s.contentSize.width && 0.0 <= p.y < s.contentSize.height)
  {
    ContainsHalfOpen(Rect(Point(0.0, 0.0), s.contentSize), p);
  }

  /** Height of the viewport left once the adjusted top and bottom insets are removed. */
  function VisibleHeight(s: ScrollView): real {
    InsetHeight(s.bounds.height, s.AdjustedInset().top, s.AdjustedInset().bottom)
  }

  /** `contentExceedsBounds`: the content is taller than the viewport by more than `precision`. */
  predicate ContentExceedsBounds(s: ScrollView, precision: real) {
    s.contentSize.height - VisibleHeight(s) > precision
  }

  /** When the insets fit inside the bounds, the test is the plain height comparison. */
  lemma ContentExceedsBoundsPlain(s: ScrollView, precision: real)
    requires s.AdjustedInset().top + s.AdjustedInset().bottom <= s.bounds.height
    ensures ContentExceedsBounds(s, precision) <==>
              s.contentSize.height - (s.bounds.height - s.AdjustedInset().top - s.AdjustedInset().bottom) > precision
  {
  }

  /** Lowest vertical content offset the clamp allows: the top of the content under the inset. */
  function MinOffsetY(s: ScrollView): real {
    -s.AdjustedInset().top
  }

  /** Highest vertical content offset the clamp allows, never below the lowest. */
  function MaxOffsetY(s: ScrollView): (r: real)
    ensures r >= MinOffsetY(s)
  {
    Max(-s.AdjustedInset().top, s.contentSize.height + s.AdjustedInset().bottom - s.bounds.height)
  }

  /** Result of `stopVerticalScrolling`: the updated view and the returned difference. */
  datatype Stopped = Stopped(view: ScrollView, difference: real)

  /**
    `stopVerticalScrolling`: clamps the vertical content offset into the
    scrollable range, keeps everything else, and returns how far the offset
    moved. An offset already in range is left alone.
   */
  function StopVerticalScrolling(s: ScrollView): (r: Stopped)
    ensures MinOffsetY(s) <= r.view.offset.y <= MaxOffsetY(s)
    ensures r.view.offset.x == s.offset.x
    ensures r.view == s.(offset := r.view.offset)
    ensures r.difference == r.view.offset.y - s.offset.y
    ensures MinOffsetY(s) <= s.offset.y <= MaxOffsetY(s) ==> r.view == s && r.difference == 0.0
    ensures s.offset.y < MinOffsetY(s) ==> r.view.offset.y == MinOffsetY(s)
    ensures s.offset.y > MaxOffsetY(s) ==> r.view.offset.y == MaxOffsetY(s)
  {
    var top := s.AdjustedInset().top;
    var y1 := Max(-top, s.offset.y);
    var contentHeight := s.contentSize.height + s.AdjustedInset().bottom;
    var y2 := Min(Max(-top, contentHeight - s.bounds.height), y1);
    var view := s.(offset := Point(s.offset.x, y2));
    Stopped(view, y2 - s.offset.y)
  }

  /** Stopping twice is stopping once: the second call moves nothing and returns 0. */
  lemma StopVerticalScrollingIdempotent(s: ScrollView)
    ensures StopVerticalScrolling(StopVerticalScrolling(s).view).view == StopVerticalScrolling(s).view
    ensures StopVerticalScrolling(StopVerticalScrolling(s).view).difference == 0.0
  {
    var t := StopVerticalScrolling(s).view;
    assert MinOffsetY(t) == MinOffsetY(s) && MaxOffsetY(t) == MaxOffsetY(s);
  }

  /** After stopping, the relative vertical offset is never negative: no top bounce survives. */
  lemma StoppedIsNotBouncing(s: ScrollView)
    ensures RelativeOffset(StopVerticalScrolling(s).view).y >= 0.0
  {
  }
}
