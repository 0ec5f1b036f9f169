/**
  The older `PanelPresenter` acting as its own transition animator: its two
  durations, the distance its views travel, the duration scaled by that
  distance, the dismissal duration shortened by a flick, and the steps of
  its presentation and dismissal. Steps reuse `PanelAnimation.Step`; here
  an `Alpha` target is the dimming view's opacity and a `Translation`
  target is the vertical translation shared by the panel's container and
  background views.
 */
module LegacyTransition {
  import opened Wrappers
  import opened Geometry
  import opened Float
  import opened PanelAnimation
  import opened LegacyPresenter
  import opened PanEvents

  /** `present(from:)` goes ahead, or stops the program when no view controller is attached. */
  datatype PresentOutcome = Presented | PreconditionFailure

  /** `present(from:)`: a presenter whose view controller is gone fails its precondition. */
  function Present(hasViewController: bool): (r: PresentOutcome)
    ensures r == Presented <==> hasViewController
    ensures r == PreconditionFailure <==> !hasViewController
  {
    if hasViewController then Presented else PreconditionFailure
  }

  /**
    `isPresenting(using:)`: the context exists, has a destination
    controller, and that controller is being presented. `context` holds the
    destination's `isBeingPresented` (absent without one) when there is a
    context.
   */
  predicate IsPresenting(context: Option<Option<bool>>) {
    context == Some(Some(true))
  }

  const PresentDuration: real := 0.62
  const DismissBaseDuration: real := 0.32

  /** `transitionDuration(using:)`: the longer duration exactly when presenting. */
  function LegacyDuration(context: Option<Option<bool>>): (r: real)
    ensures r == PresentDuration <==> IsPresenting(context)
    ensures r == DismissBaseDuration <==> !IsPresenting(context)
  {
    if IsPresenting(context) then PresentDuration else DismissBaseDuration
  }

  /** The shortest duration the distance scaling may produce. */
  const MinimumDuration: real := 0.15

  /** What the animator reads from the presenter's views. */
  datatype Layout = Layout(
    visibleHeight: real,
    containerHeight: real,
    scrollFrameHeight: real,
    contentHeight: real,
    extendsToFullHeight: bool)

  /**
    How far the views travel: the content (or, for full-height content, the
    scroll view's frame) plus the header, capped by the visible container
    height, plus one more header height so the panel starts fully hidden.
   */
  function FullOffset(l: Layout): (r: real)
    ensures r <= l.visibleHeight + HeaderViewHeight
    ensures var h := if l.extendsToFullHeight then l.scrollFrameHeight else l.contentHeight;
            r <= h + 2.0 * HeaderViewHeight &&
            (r == l.visibleHeight + HeaderViewHeight || r == h + 2.0 * HeaderViewHeight)
  {
    var h := if l.extendsToFullHeight then l.scrollFrameHeight else l.contentHeight;
    Min(l.visibleHeight, h + HeaderViewHeight) + HeaderViewHeight
  }

  /**
    `max(0.15, full * ((fullOffset / containerHeight) * 0.75))` in floating
    point: the duration shrinks with the share of the container the panel
    covers, but never below 0.15. A zero container height makes it
    +infinity when the offset is positive and falls back to 0.15 otherwise.
   */
  function ScaledDuration(full: real, fullOffset: real, containerHeight: real): (r: Ext)
    ensures r.Fin? || r.PosInf?
    ensures r.Fin? ==> r.v >= MinimumDuration
    ensures containerHeight != 0.0 ==>
              r == Fin(Max(MinimumDuration, full * (fullOffset / containerHeight * 0.75)))
    ensures containerHeight == 0.0 && full > 0.0 && fullOffset > 0.0 ==> r == PosInf
    ensures containerHeight == 0.0 && fullOffset == 0.0 ==> r == Fin(MinimumDuration)
  {
    var scaled := DistanceScaled(full, fullOffset, containerHeight);
    DistanceScaledCases(full, fullOffset, containerHeight);
    SwiftMaxBounded(MinimumDuration, scaled);
    SwiftMax(Fin(MinimumDuration), scaled)
  }

  /** `full * ((fullOffset / containerHeight) * 0.75)` in floating point. */
  function DistanceScaled(full: real, fullOffset: real, containerHeight: real): Ext {
    Mul(Fin(full), Mul(Div(Fin(fullOffset), Fin(containerHeight)), Fin(0.75)))
  }

  /** The scaled product is real arithmetic unless the container height is zero. */
  lemma DistanceScaledCases(full: real, fullOffset: real, containerHeight: real)
    ensures containerHeight != 0.0 ==>
              DistanceScaled(full, fullOffset, containerHeight) == Fin(full * (fullOffset / containerHeight * 0.75))
    ensures containerHeight == 0.0 && full > 0.0 && fullOffset > 0.0 ==>
              DistanceScaled(full, fullOffset, containerHeight) == PosInf
    ensures containerHeight == 0.0 && fullOffset == 0.0 ==>
              DistanceScaled(full, fullOffset, containerHeight).NaN?
  {
    if containerHeight != 0.0 {
      DivFinite(fullOffset, containerHeight);
      assert Mul(Fin(fullOffset / containerHeight), Fin(0.75)) == Fin(fullOffset / containerHeight * 0.75);
    } else {
      DivByZero(fullOffset);
    }
  }

  /**
    `min(duration, distanceToCover / velocity)` in floating point, with the
    distance left between the views' translation and the fully hidden
    offset.
   */
  function LegacyDismissDuration(duration: Ext, fullOffset: real, viewTy: Ext, velocity: real): (r: Ext)
    ensures r == duration || r == Div(Sub(Fin(fullOffset), viewTy), Fin(velocity))
  {
    SwiftMin(duration, Div(Sub(Fin(fullOffset), viewTy), Fin(velocity)))
  }

  /**
    A tap dismisses with velocity 0; with the views not already past the
    hidden offset, the dismissal then takes the distance-scaled duration
    rather than an infinite or undefined one.
   */
  lemma TapDismissalUsesScaledDuration(full: real, l: Layout, ty: real)
    requires ty <= FullOffset(l)
    ensures var d := ScaledDuration(full, FullOffset(l), l.containerHeight);
            LegacyDismissDuration(d, FullOffset(l), Fin(ty), 0.0) == d
  {
    var d := ScaledDuration(full, FullOffset(l), l.containerHeight);
    var distance := FullOffset(l) - ty;
    DivByZero(distance);
    assert Sub(Fin(FullOffset(l)), Fin(ty)) == Fin(distance);
  }

  /**
    A downward flick shortens the dismissal to the time the remaining
    distance takes at the flick's speed, never lengthening it. The result
    is negative exactly when the views were already carried past the
    hidden offset.
   */
  lemma FlickShortensDismissal(full: real, l: Layout, ty: real, velocity: real)
    requires velocity > 0.0 && full >= 0.0
    ensures var d := ScaledDuration(full, FullOffset(l), l.containerHeight);
            var r := LegacyDismissDuration(d, FullOffset(l), Fin(ty), velocity);
            r.Fin? && (d.Fin? ==> r.v <= d.v) &&
            (ty <= FullOffset(l) ==> 0.0 <= r.v) && (ty > FullOffset(l) ==> r.v < 0.0) &&
            (d.Fin? ==> r.v == Min(d.v, (FullOffset(l) - ty) / velocity)) &&
            (d.PosInf? ==> r.v == (FullOffset(l) - ty) / velocity)
  {
    var d := ScaledDuration(full, FullOffset(l), l.containerHeight);
    DivFinite(FullOffset(l) - ty, velocity);
    assert Sub(Fin(FullOffset(l)), Fin(ty)) == Fin(FullOffset(l) - ty);
    assert ty <= FullOffset(l) ==> (FullOffset(l) - ty) / velocity >= 0.0;
    assert ty > FullOffset(l) ==> (FullOffset(l) - ty) / velocity < 0.0;
  }

  /** The transition's outcome: the views' translation at the end, and its steps. */
  datatype LegacyAnimation = LegacyAnimation(viewTy: Ext, steps: seq<Step>)

  /**
    `animateTransition(using:)`. Presenting: the dimming view starts clear
    and the views one full offset down; the dimming fades in easing out
    over 35% of the duration while a spring (damping 0.78, no initial
    velocity) brings the views to rest, and the transition completes.
    Dismissing: the dimming fades out and the views slide to the full
    offset together, linearly for a fast flick and easing in otherwise, over
    the dismissal duration, and the transition completes.
   */
  function AnimateLegacyTransition(context: Option<Option<bool>>, l: Layout, viewTy: Ext,
                                   dismissVelocity: real): (r: LegacyAnimation)
    ensures CompletesOnceLast(r.steps) && Completions(r.steps) == 1
    ensures IsPresenting(context) ==>
              r.viewTy == Fin(0.0) &&
              r.steps == [SetStart(Alpha(0.0)), SetStart(Translation(FullOffset(l))),
                          Animate(Fin(PresentDuration * 0.35), EaseOut, Alpha(1.0)),
                          Animate(Fin(PresentDuration), Spring(0.78, 0.0), Translation(0.0)),
                          Complete(true)]
    ensures !IsPresenting(context) ==>
              var d := LegacyDismissDuration(ScaledDuration(DismissBaseDuration, FullOffset(l), l.containerHeight),
                                             FullOffset(l), viewTy, dismissVelocity);
              r.viewTy == Fin(FullOffset(l)) &&
              r.steps == [Animate(d, DismissCurve(dismissVelocity), Alpha(0.0)),
                          Animate(d, DismissCurve(dismissVelocity), Translation(FullOffset(l))),
                          Complete(true)]
  {
    var fullOffset := FullOffset(l);
    var full := LegacyDuration(context);
    var r :=
      if IsPresenting(context) then
        LegacyAnimation(Fin(0.0),
          [SetStart(Alpha(0.0)), SetStart(Translation(fullOffset)),
           Animate(Fin(full * 0.35), EaseOut, Alpha(1.0)),
           Animate(Fin(full), Spring(0.78, 0.0), Translation(0.0)),
           Complete(true)])
      else
        var d := LegacyDismissDuration(ScaledDuration(full, fullOffset, l.containerHeight), fullOffset, viewTy, dismissVelocity);
        var curve := DismissCurve(dismissVelocity);
        LegacyAnimation(Fin(fullOffset),
          [Animate(d, curve, Alpha(0.0)), Animate(d, curve, Translation(fullOffset)), Complete(true)]);
    CompletesOnceLastCount(r.steps);
    r
  }

  /**
    A committed drag hands its velocity to the transition: a fast flick
    slides the panel out linearly, a slower release eases in.
   */
  lemma DragDismissalCurve(p: Presenter, e: PanEvent, precision: real,
                           l: Layout, context: Option<Option<bool>>)
    requires !IsPresenting(context)
    requires e.state == Ended && Commits(p, e)
    ensures var q := Release(p, e, precision);
            var a := AnimateLegacyTransition(context, l, q.viewTy, q.dismissVelocity);
            a.steps[0].curve == (if e.velocity.y > FastFlickVelocity then Linear else EaseIn)
  {
    var q := Release(p, e, precision);
    assert q.dismissVelocity == e.velocity.y;
    var a := AnimateLegacyTransition(context, l, q.viewTy, q.dismissVelocity);
    assert a.steps[0].curve == DismissCurve(q.dismissVelocity);
  }

  /**
    A tap on the dimmed background dismisses the resting panel over the
    distance-scaled duration, easing in.
   */
  lemma TapDismissalEasesIn(p: Presenter, l: Layout, context: Option<Option<bool>>)
    requires !IsPresenting(context)
    requires FullOffset(l) >= 0.0
    ensures var q := TapDismiss(p);
            var a := AnimateLegacyTransition(context, l, Fin(0.0), q.dismissVelocity);
            a.steps[0].duration == ScaledDuration(DismissBaseDuration, FullOffset(l), l.containerHeight) &&
            a.steps[0].curve == EaseIn
  {
    TapDismissalUsesScaledDuration(DismissBaseDuration, l, 0.0);
  }
}
