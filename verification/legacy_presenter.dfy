/**
  The older, self-contained `PanelPresenter`: it keeps the presented view
  in a scroll view of its own, insets that scroll view so content sits at
  the bottom, decides which of its recognizers may begin, drags the panel
  with its own pan recognizer, and lets the panel bounce back with the
  scroll view. `viewTy` is the vertical translation it applies to both the
  container view and the background view; every operation gives the two
  the same value, so one field stands for both.
 */
module LegacyPresenter {
  import opened Wrappers
  import opened Geometry
  import opened Float
  import opened ScrollGeometry
  import opened PanEvents

  /** Height of the header above the scroll view. */
  const HeaderViewHeight: real := 65.0

  /** Height of the shadow below the header. */
  const HeaderShadowHeight: real := 2.0

  /** How far the scroll view extends below the screen, so views can bounce up. */
  const BottomBounceAllowance: real := 100.0

  /**
    The presenter's state. `bounceBackMultiplier` is set when a drag ends
    while the content cannot scroll, so the panel follows the scroll view's
    own bounce back; `translationBias` is the adjustment the pan recognizer's
    translation received at `.began`; `dismissCalls` counts requested
    dismissals and `springBacks` lists the initial velocity of every
    spring-back animation started.
   */
  datatype Presenter = Presenter(
    scroll: ScrollView,
    viewTy: Ext,
    startedInHeader: bool,
    bounceBackMultiplier: Option<Ext>,
    translationBias: real,
    dismissVelocity: real,
    dismissCalls: nat,
    springBacks: seq<Ext>)

  // ---------------------------------------------------------------------------
  // updateScrollView
  // ---------------------------------------------------------------------------

  /**
    What `updateScrollView` reads besides the presenter: whether to inset
    for the keyboard, the keyboard's overlap with the container (absent when
    there is none), the scroll view's safe-area insets and whether the
    content extends to full height.
   */
  datatype Environment = Environment(
    insetsWithKeyboardFrame: bool,
    keyboardInset: Option<real>,
    safeArea: Insets,
    extendsToFullHeight: bool)

  /** The keyboard adds to the bottom inset only when enabled and present. */
  predicate KeyboardApplies(env: Environment) {
    env.insetsWithKeyboardFrame && env.keyboardInset.Some?
  }

  /**
    Bottom content inset: the bounce allowance, plus the keyboard overlap
    beyond the bottom safe area when keyboard insetting applies.
   */
  function BottomInset(env: Environment): (r: real)
    ensures !KeyboardApplies(env) ==> r == BottomBounceAllowance
    ensures KeyboardApplies(env) ==> r - BottomBounceAllowance == env.keyboardInset.value - env.safeArea.bottom
  {
    BottomBounceAllowance +
      (if KeyboardApplies(env) then env.keyboardInset.value - env.safeArea.bottom else 0.0)
  }

  /** Height available to content: the safe-area height of the frame less the bottom inset. */
  function AvailableHeight(s: ScrollView, env: Environment): real {
    InsetHeight(s.bounds.height, env.safeArea.top, env.safeArea.bottom) - BottomInset(env)
  }

  /** Everything one `updateScrollView` call decides. */
  datatype ScrollUpdate = ScrollUpdate(presenter: Presenter, backgroundTop: real, indicator: Insets, shadowAlpha: real)

  /**
    The insets `updateScrollView` assigns: the bottom inset, and a top
    inset that bottom-aligns content shorter than the available height
    (full-height content gets none).
   */
  function AlignContent(s: ScrollView, env: Environment): (r: ScrollView)
    ensures r == s.(contentInset := r.contentInset)
    ensures r.contentInset.left == s.contentInset.left && r.contentInset.right == s.contentInset.right
    ensures r.contentInset.bottom == BottomInset(env)
    ensures var top := r.contentInset.top;
            var avail := AvailableHeight(s, env);
            top >= 0.0 &&
            (env.extendsToFullHeight ==> top == 0.0) &&
            (!env.extendsToFullHeight ==>
               top + s.contentSize.height >= avail &&
               (s.contentSize.height <= avail ==> top + s.contentSize.height == avail) &&
               (s.contentSize.height >= avail ==> top == 0.0))
  {
    var available := AvailableHeight(s, env);
    var contentHeight := if env.extendsToFullHeight then available else s.contentSize.height;
    s.(contentInset := s.contentInset.(bottom := BottomInset(env), top := Max(0.0, available - contentHeight)))
  }

  /**
    The bounce-back tracking of `updateScrollView`, given the relative
    vertical offset `y`: while a multiplier is pending, the views follow the
    scroll view's top bounce scaled by it, and come to rest, forgetting the
    multiplier, once the content is back at its top.
   */
  function FollowBounce(p: Presenter, y: real): (r: Presenter)
    ensures p.bounceBackMultiplier.None? ==> r == p
    ensures p.bounceBackMultiplier.Some? && y >= 0.0 ==>
              r == p.(viewTy := Fin(0.0), bounceBackMultiplier := None)
    ensures p.bounceBackMultiplier.Some? && y < 0.0 ==>
              r == p.(viewTy := Mul(Fin(-y), p.bounceBackMultiplier.value))
    ensures p.bounceBackMultiplier.Some? && p.bounceBackMultiplier.value.Fin? && y < 0.0 ==>
              r.viewTy == Fin(-y * p.bounceBackMultiplier.value.v)
  {
    match p.bounceBackMultiplier
    case None => p
    case Some(m) =>
      if y >= 0.0 then p.(viewTy := Fin(0.0), bounceBackMultiplier := None)
      else
        assert m.Fin? ==> Mul(Fin(-y), m) == Fin(-y * m.v);
        p.(viewTy := Mul(Fin(-y), m))
  }

  /**
    The vertical indicator insets: the top never reaches above the top of
    the content (it moves down with a top bounce) nor into the header
    shadow; the bottom follows the content inset.
   */
  function IndicatorInsets(s: ScrollView): (r: Insets)
    ensures r.top >= HeaderShadowHeight
    ensures r.top >= s.AdjustedInset().top + HeaderShadowHeight
    ensures RelativeOffset(s).y >= 0.0 ==> r.top == Max(0.0, s.AdjustedInset().top) + HeaderShadowHeight
    ensures RelativeOffset(s).y < 0.0 && s.AdjustedInset().top >= 0.0 ==>
              r.top == s.AdjustedInset().top - RelativeOffset(s).y + HeaderShadowHeight
    ensures r.bottom == s.contentInset.bottom
    ensures r.left == 0.0 && r.right == 0.0
  {
    Insets(Max(0.0, s.AdjustedInset().top - Min(0.0, RelativeOffset(s).y)) + HeaderShadowHeight,
           0.0, s.contentInset.bottom, 0.0)
  }

  /**
    `updateScrollView`: aligns the content, tracks a pending bounce-back,
    places the background with the content just below the header, sets the
    indicator insets, and shows the header shadow only while the content is
    scrolled.
   */
  function UpdateScrollView(p: Presenter, env: Environment): (r: ScrollUpdate)
    ensures r.presenter.scroll == AlignContent(p.scroll, env)
    ensures r.presenter == FollowBounce(p.(scroll := r.presenter.scroll), RelativeOffset(r.presenter.scroll).y)
    ensures r.backgroundTop + HeaderViewHeight + RelativeOffset(r.presenter.scroll).y == r.presenter.scroll.contentInset.top
    ensures r.indicator == IndicatorInsets(r.presenter.scroll)
    ensures r.shadowAlpha == 1.0 <==> p.scroll.offset.y > 0.0
    ensures r.shadowAlpha == 0.0 <==> p.scroll.offset.y <= 0.0
  {
    var s := AlignContent(p.scroll, env);
    var y := RelativeOffset(s).y;
    ScrollUpdate(
      FollowBounce(p.(scroll := s), y),
      s.contentInset.top - y - HeaderViewHeight,
      IndicatorInsets(s),
      if s.offset.y > 0.0 then 1.0 else 0.0)
  }

  /** Aligning aligned content changes nothing: the insets depend only on sizes and the environment. */
  lemma AlignContentIdempotent(s: ScrollView, env: Environment)
    ensures AlignContent(AlignContent(s, env), env) == AlignContent(s, env)
  {
    var a := AlignContent(s, env);
    assert AvailableHeight(a, env) == AvailableHeight(s, env);
  }

  /**
    With nothing changed in between, a second update assigns the same
    insets and places the background and the indicator where the first did.
   */
  lemma UpdateScrollViewInsetsStable(p: Presenter, env: Environment)
    ensures var first := UpdateScrollView(p, env);
            var second := UpdateScrollView(first.presenter, env);
            second.presenter.scroll == first.presenter.scroll &&
            second.indicator == first.indicator &&
            second.backgroundTop == first.backgroundTop
  {
    AlignContentIdempotent(p.scroll, env);
  }

  /**
    A pending bounce-back ends the moment the content is back at or below
    its top: the views return to rest and no multiplier is left.
   */
  lemma BounceBackEndsAtTop(p: Presenter, env: Environment)
    requires p.bounceBackMultiplier.Some?
    requires RelativeOffset(UpdateScrollView(p, env).presenter.scroll).y >= 0.0
    ensures UpdateScrollView(p, env).presenter.viewTy == Fin(0.0)
    ensures UpdateScrollView(p, env).presenter.bounceBackMultiplier.None?
  {
  }

  // ---------------------------------------------------------------------------
  // Gesture recognizers
  // ---------------------------------------------------------------------------

  /** The presenter's two recognizers, and any other that asks it. */
  datatype Recognizer = DismissPan | DismissTap | OtherRecognizer

  /** Whether a location (in a view's own coordinates) lies inside that view's bounds. */
  predicate InView(bounds: Rect, location: Point) {
    Contains(bounds, location)
  }

  /**
    `isGestureRecognizerInScrollContent`: with the presented controller's
    own scroll view, the point-in-content test on it; with the presenter's
    scroll view, whether the touch is inside the content view it hosts.
   */
  predicate InScrollContent(customScroll: bool, s: ScrollView, inScroll: Point,
                            contentBounds: Rect, inContentView: Point) {
    if customScroll then IsPointInScrollContent(s, inScroll) else InView(contentBounds, inContentView)
  }

  /**
    With the presented controller's own scroll view (of non-negative content
    size), a touch is in the content exactly when it is inside the scroll
    view's bounds and inside the content box from the origin.
   */
  lemma CustomScrollContentIsBox(s: ScrollView, inScroll: Point, contentBounds: Rect, inContentView: Point)
    requires s.contentSize.width >= 0.0 && s.contentSize.height >= 0.0
    ensures InScrollContent(true, s, inScroll, contentBounds, inContentView) <==>
              Contains(s.BoundsRect(), inScroll) &&
              0.0 <= inScroll.x < s.contentSize.width && 0.0 <= inScroll.y < s.contentSize.height
  {
    PointInScrollContentBox(s, inScroll);
  }

  /**
    Below the end of a custom scroll view's content, a dismissing pan
    begins whatever the scroll position, as long as the panel may be
    dismissed.
   */
  lemma PanBelowCustomContentBegins(p: Presenter, canBeDismissed: Option<bool>, s: ScrollView,
                                    inScroll: Point, contentBounds: Rect, inContentView: Point,
                                    inHeader: bool, precision: real)
    requires s.contentSize.width >= 0.0 && s.contentSize.height >= 0.0
    requires inScroll.y >= s.contentSize.height
    ensures var inContent := InScrollContent(true, s, inScroll, contentBounds, inContentView);
            ShouldBegin(p, DismissPan, canBeDismissed, inContent, inHeader, precision).allowed <==>
              canBeDismissed.GetOr(true)
  {
    CustomScrollContentIsBox(s, inScroll, contentBounds, inContentView);
  }

  /**
    A tap that lands on a custom scroll view's content never dismisses,
    whatever else it touches.
   */
  lemma TapOnCustomContentIgnored(p: Presenter, canBeDismissed: Option<bool>, s: ScrollView,
                                  inScroll: Point, contentBounds: Rect, inContentView: Point,
                                  inHeader: bool, precision: real)
    requires s.contentSize.width >= 0.0 && s.contentSize.height >= 0.0
    requires Contains(s.BoundsRect(), inScroll)
    requires 0.0 <= inScroll.x < s.contentSize.width && 0.0 <= inScroll.y < s.contentSize.height
    ensures !ShouldBegin(p, DismissTap, canBeDismissed,
                         InScrollContent(true, s, inScroll, contentBounds, inContentView),
                         inHeader, precision).allowed
  {
    CustomScrollContentIsBox(s, inScroll, contentBounds, inContentView);
  }

  /** A begin decision and the presenter afterwards. */
  datatype Decision = Decision(allowed: bool, presenter: Presenter)

  /**
    `gestureRecognizerShouldBegin`: every call first forgets whether the
    last drag started in the header. Nothing begins when the panel may not
    be dismissed (`canBeDismissed` absent means it may); a tap begins only
    outside both content and header; a pan from the header always begins
    and remembers that; a pan inside the content begins only when the
    content is at its top; anything else begins.
   */
  function ShouldBegin(p: Presenter, recognizer: Recognizer, canBeDismissed: Option<bool>,
                       inContent: bool, inHeader: bool, precision: real): (r: Decision)
    ensures r.presenter == p.(startedInHeader := r.presenter.startedInHeader)
    ensures r.presenter.startedInHeader <==>
              canBeDismissed.GetOr(true) && recognizer == DismissPan && inHeader
    ensures !canBeDismissed.GetOr(true) ==> !r.allowed
    ensures canBeDismissed.GetOr(true) && recognizer == DismissTap ==> (r.allowed <==> !inContent && !inHeader)
    ensures canBeDismissed.GetOr(true) && recognizer == DismissPan && inHeader ==> r.allowed
    ensures canBeDismissed.GetOr(true) && recognizer == DismissPan && !inHeader && inContent ==>
              (r.allowed <==> IsAtTop(p.scroll, precision))
    ensures canBeDismissed.GetOr(true) && recognizer == DismissPan && !inHeader && !inContent ==> r.allowed
    ensures canBeDismissed.GetOr(true) && recognizer == OtherRecognizer ==> r.allowed
  {
    var reset := p.(startedInHeader := false);
    if !canBeDismissed.GetOr(true) then Decision(false, reset)
    else if recognizer == DismissTap then Decision(!inContent && !inHeader, reset)
    else if recognizer == DismissPan then
      if inHeader then Decision(true, reset.(startedInHeader := true))
      else if inContent then Decision(IsAtTop(p.scroll, precision), reset)
      else Decision(true, reset)
    else Decision(true, reset)
  }

  /** A simultaneous-recognition answer, and whether the scroll view's pan was reset to cancel it. */
  datatype Simultaneity = Simultaneity(allowed: bool, resetsScrollPan: bool)

  /**
    `shouldRecognizeSimultaneouslyWith`: only together with the scroll
    view's own pan recognizer. A drag from the header over scrollable
    content also disables and re-enables that recognizer, cancelling its
    scroll so the header drag wins.
   */
  function ShouldRecognizeSimultaneously(otherIsScrollPan: bool, inHeader: bool, s: ScrollView,
                                         precision: real): (r: Simultaneity)
    ensures r.allowed <==> otherIsScrollPan
    ensures r.resetsScrollPan <==> otherIsScrollPan && inHeader && ContentExceedsBounds(s, precision)
  {
    if !otherIsScrollPan then Simultaneity(false, false)
    else if inHeader && ContentExceedsBounds(s, precision) then Simultaneity(true, true)
    else Simultaneity(true, false)
  }

  // ---------------------------------------------------------------------------
  // Dragging
  // ---------------------------------------------------------------------------

  /**
    `.began` bookkeeping: when the drag catches the scroll view bouncing
    below its top, the recognizer's translation is shifted by the overshoot
    and the scroll view is halted; otherwise the translation is left as the
    finger's.
   */
  function CatchBounce(p: Presenter): (r: Presenter)
    ensures RelativeOffset(p.scroll).y < 0.0 ==>
              r == p.(translationBias := -RelativeOffset(p.scroll).y, scroll := StopVerticalScrolling(p.scroll).view)
    ensures RelativeOffset(p.scroll).y >= 0.0 ==> r == p.(translationBias := 0.0)
    ensures RelativeOffset(r.scroll).y >= 0.0 ==> r.translationBias >= 0.0
  {
    var y := RelativeOffset(p.scroll).y;
    if y < 0.0 then p.(translationBias := -y, scroll := StopVerticalScrolling(p.scroll).view)
    else p.(translationBias := 0.0)
  }

  /** The recognizer's translation as the presenter reads it. */
  function Offset(p: Presenter, e: PanEvent): real {
    e.translation.y + p.translationBias
  }

  /** The panel follows the scroll view's top bounce unless a header drag starts over scrollable content. */
  predicate CanDragWithBounce(p: Presenter, precision: real) {
    !ContentExceedsBounds(p.scroll, precision) || !p.startedInHeader
  }

  /** A terminal event commits the dismissal exactly when it ended moving down, past the start. */
  predicate Commits(p: Presenter, e: PanEvent) {
    e.state == Ended && e.velocity.y > 0.0 && Offset(p, e) > 0.0
  }

  /**
    A non-terminal event: the views move with the finger's downward
    translation and, when allowed, also with the scroll view's top bounce;
    the scroll view bounces only when that is allowed.
   */
  function Drag(p: Presenter, e: PanEvent, precision: real): (r: Presenter)
    ensures r == p.(viewTy := r.viewTy, scroll := p.scroll.(bounces := CanDragWithBounce(p, precision)))
    ensures !CanDragWithBounce(p, precision) || RelativeOffset(p.scroll).y >= 0.0 ==>
              r.viewTy == Fin(Max(0.0, Offset(p, e)))
    ensures CanDragWithBounce(p, precision) && RelativeOffset(p.scroll).y < 0.0 ==>
              r.viewTy == Fin(Max(0.0, Offset(p, e)) + RelativeOffset(p.scroll).y)
  {
    var translation := Max(0.0, Offset(p, e)) +
      (if CanDragWithBounce(p, precision) then Min(0.0, RelativeOffset(p.scroll).y) else 0.0);
    p.(viewTy := Fin(translation), scroll := p.scroll.(bounces := CanDragWithBounce(p, precision)))
  }

  /**
    A terminal event. Bouncing is re-enabled. A committing event hides the
    indicator, halts the scroll view, moves the views down by the scroll
    view's overshoot and requests dismissal with the event's velocity.
    Otherwise, with the panel displaced: over content that cannot scroll,
    the views are left to follow the scroll view's own bounce back (the
    multiplier relates the panel's translation to the overshoot); over
    scrollable content, the scroll view is halted and the panel springs back
    to rest.
   */
  function Release(p: Presenter, e: PanEvent, precision: real): (r: Presenter)
    requires e.state.IsTerminal()
    ensures r.scroll.bounces
    ensures Commits(p, e) ==> r.dismissCalls == p.dismissCalls + 1 && r.dismissVelocity == e.velocity.y
    ensures Commits(p, e) ==>
              !r.scroll.showsIndicator && r.viewTy == Add(p.viewTy, Fin(Max(0.0, -RelativeOffset(p.scroll).y)))
    ensures Commits(p, e) ==> RelativeOffset(r.scroll).y >= 0.0
    ensures !Commits(p, e) ==> r.dismissCalls == p.dismissCalls && r.dismissVelocity == p.dismissVelocity
    ensures !Commits(p, e) && p.viewTy == Fin(0.0) ==> r == p.(scroll := p.scroll.(bounces := true))
    ensures !Commits(p, e) && p.viewTy != Fin(0.0) && !ContentExceedsBounds(p.scroll, precision) ==>
              r == p.(scroll := p.scroll.(bounces := true),
                      bounceBackMultiplier := Some(Div(p.viewTy, Fin(-RelativeOffset(p.scroll).y))))
    ensures !Commits(p, e) && p.viewTy != Fin(0.0) && ContentExceedsBounds(p.scroll, precision) ==>
              r.viewTy == Fin(0.0) && RelativeOffset(r.scroll).y >= 0.0 &&
              r.springBacks == p.springBacks +
                [Neg(Div(Fin(e.velocity.y), Add(p.viewTy, Fin(Max(0.0, -RelativeOffset(p.scroll).y)))))]
    ensures Commits(p, e) || p.viewTy == Fin(0.0) || !ContentExceedsBounds(p.scroll, precision) ==>
              r.springBacks == p.springBacks
  {
    var overshoot := Max(0.0, -RelativeOffset(p.scroll).y);
    var s := p.scroll.(bounces := true);
    if Commits(p, e) then
      p.(scroll := StopVerticalScrolling(s.(showsIndicator := false)).view,
         viewTy := Add(p.viewTy, Fin(overshoot)),
         dismissVelocity := e.velocity.y,
         dismissCalls := p.dismissCalls + 1)
    else if p.viewTy != Fin(0.0) then
      if !ContentExceedsBounds(s, precision) then
        p.(scroll := s, bounceBackMultiplier := Some(Div(p.viewTy, Fin(-RelativeOffset(s).y))))
      else
        var length := Add(p.viewTy, Fin(overshoot));
        p.(scroll := StopVerticalScrolling(s).view,
           viewTy := Fin(0.0),
           springBacks := p.springBacks + [Neg(Div(Fin(e.velocity.y), length))])
    else
      p.(scroll := s)
  }

  /**
    The spring-back's length is the views' translation plus the overshoot,
    and nothing keeps it from being zero: a drag that left the views raised
    by exactly the content's top bounce hands the spring an infinite initial
    velocity, or NaN when the release is at rest.
   */
  lemma ZeroLengthSpringBack(p: Presenter, e: PanEvent, precision: real)
    requires e.state.IsTerminal() && !Commits(p, e) && ContentExceedsBounds(p.scroll, precision)
    requires RelativeOffset(p.scroll).y < 0.0 && p.viewTy == Fin(RelativeOffset(p.scroll).y)
    ensures var r := Release(p, e, precision);
            var last := r.springBacks[|r.springBacks| - 1];
            |r.springBacks| == |p.springBacks| + 1 &&
            (e.velocity.y == 0.0 ==> last.NaN?) &&
            (e.velocity.y > 0.0 ==> last == NegInf) &&
            (e.velocity.y < 0.0 ==> last == PosInf)
  {
    assert Add(p.viewTy, Fin(Max(0.0, -RelativeOffset(p.scroll).y))) == Fin(0.0);
    DivByZero(e.velocity.y);
  }

  /** `handleDismissGestureRecognizer`: one event of the presenter's pan recognizer. */
  function HandleDismissPan(p: Presenter, e: PanEvent, precision: real): (r: Presenter)
    ensures var q := if e.state == Began then CatchBounce(p) else p;
            r == if e.state.IsTerminal() then Release(q, e, precision) else Drag(q, e, precision)
    ensures !e.state.IsTerminal() ==> r.viewTy.Fin? && r.dismissCalls == p.dismissCalls
    ensures e.state.IsTerminal() ==> r.scroll.bounces
  {
    var q := if e.state == Began then CatchBounce(p) else p;
    if e.state.IsTerminal() then Release(q, e, precision) else Drag(q, e, precision)
  }

  /**
    Catching the scroll view mid-bounce hands its overshoot to the panel:
    a `.began` with no finger movement yet places the views exactly where
    the content had been pulled to.
   */
  lemma CaughtBounceContinuesSmoothly(p: Presenter, e: PanEvent, precision: real)
    requires e.state == Began && e.translation.y == 0.0
    requires RelativeOffset(p.scroll).y < 0.0
    ensures HandleDismissPan(p, e, precision).viewTy == Fin(-RelativeOffset(p.scroll).y)
  {
    var q := CatchBounce(p);
    StoppedIsNotBouncing(p.scroll);
    assert RelativeOffset(q.scroll).y >= 0.0;
  }

  /** While dragging, the views never move above the scroll view's top bounce. */
  lemma DragNeverAboveBounce(p: Presenter, e: PanEvent, precision: real)
    requires e.state == Changed
    ensures var r := HandleDismissPan(p, e, precision);
            r.viewTy.Fin? && r.viewTy.v >= Min(0.0, RelativeOffset(p.scroll).y)
  {
  }

  /** `handleDismissTapGestureRecognizer`: dismisses with velocity 0. */
  function TapDismiss(p: Presenter): (r: Presenter)
    ensures r == p.(dismissVelocity := 0.0, dismissCalls := p.dismissCalls + 1)
  {
    p.(dismissVelocity := 0.0, dismissCalls := p.dismissCalls + 1)
  }
}
