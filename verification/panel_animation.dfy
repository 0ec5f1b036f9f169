/**
  Timing policy of `PanelAnimationController`, the transition animator used
  with `PanelPresentationController`: which direction a transition goes, how
  long it takes, where its animation starts and ends, which curve it uses,
  and that it completes the transition exactly once. The animations
  themselves are represented by the steps that describe them.
 */
module PanelAnimation {
  import opened Wrappers
  import opened Geometry
  import opened Float

  datatype Transition = Presenting | Dismissing

  /**
    `transition(for:)`: presenting exactly when the destination controller
    exists and is being presented. `toIsBeingPresented` is that
    controller's `isBeingPresented`, absent when there is no destination
    controller.
   */
  function TransitionFor(toIsBeingPresented: Option<bool>): (t: Transition)
    ensures t == Presenting <==> toIsBeingPresented == Some(true)
  {
    if toIsBeingPresented == Some(true) then Presenting else Dismissing
  }

  /** The short duration: dismissals, cross-fades and the no-context default. */
  const DefaultDuration: real := 0.21

  /** The duration of a sliding presentation. */
  const SlideDuration: real := 0.52

  /**
    `transitionDuration(using:)`. `context` holds the destination's
    `isBeingPresented` when there is a transition context; `crossfade` is
    the accessibility preference for cross-fade transitions or reduced
    motion.
   */
  function TransitionDuration(context: Option<Option<bool>>, crossfade: bool): (r: real)
    ensures r == DefaultDuration || r == SlideDuration
    ensures r == SlideDuration <==> context.Some? && TransitionFor(context.value) == Presenting && !crossfade
  {
    match context
    case None => DefaultDuration
    case Some(to) =>
      match TransitionFor(to)
      case Presenting => if crossfade then DefaultDuration else SlideDuration
      case Dismissing => DefaultDuration
  }

  /** Animated property of the panel's container view. */
  datatype Target = Alpha(alpha: real) | Translation(ty: real)

  datatype Curve = EaseIn | EaseOut | Linear | Spring(damping: real, initialVelocity: real)

  /**
    One step of a transition: setting the start value, running an animation
    to an end value, or calling `completeTransition`.
   */
  datatype Step = SetStart(start: Target) | Animate(duration: Ext, curve: Curve, end: Target) | Complete(finished: bool)

  /** Number of `completeTransition` calls among the steps. */
  function Completions(steps: seq<Step>): nat {
    if steps == [] then 0
    else (if steps[0].Complete? then 1 else 0) + Completions(steps[1..])
  }

  /** A transition path completes exactly once, last, and with success. */
  predicate CompletesOnceLast(steps: seq<Step>) {
    |steps| > 0 && steps[|steps| - 1] == Complete(true) &&
    forall i :: 0 <= i < |steps| - 1 ==> !steps[i].Complete?
  }

  /** A sequence whose only completion is its last step has exactly one. */
  lemma {:induction false} CompletesOnceLastCount(steps: seq<Step>)
    requires CompletesOnceLast(steps)
    ensures Completions(steps) == 1
    decreases |steps|
  {
    if |steps| == 1 {
      assert Completions(steps[1..]) == 0;
    } else {
      assert !steps[0].Complete?;
      var rest := steps[1..];
      assert rest[|rest| - 1] == steps[|steps| - 1];
      forall i | 0 <= i < |rest| - 1 ensures !rest[i].Complete? {
        assert rest[i] == steps[i + 1];
      }
      CompletesOnceLastCount(rest);
    }
  }

  /** What the animator learns about a view taking part in the transition. */
  datatype ViewInfo = ViewInfo(boundsHeight: real, fittedHeight: real)

  /**
    The transition context as the animator sees it: the destination's
    `isBeingPresented`, whether the transition is animated, the destination
    and source views, the `dismissVelocity` of the controller's
    `PanelPresentationController` when it has one, the current vertical
    translation of the animated container view, and the bottom safe-area
    inset of the transition's container view.
   */
  datatype Context = Context(
    toIsBeingPresented: Option<bool>,
    isAnimated: bool,
    toView: Option<ViewInfo>,
    fromView: Option<ViewInfo>,
    panelDismissVelocity: Option<real>,
    containerTy: real,
    containerSafeBottom: real)

  /**
    `animatePresentation`: without a destination view nothing happens;
    unanimated, the transition completes at once; a cross-fade takes the
    container's opacity from 0 to 1 easing out; a slide starts the
    container one fitted content height plus the bottom safe-area inset
    below rest and springs it to rest (damping 0.86, no initial velocity).
    Completion follows the animation.
   */
  function AnimatePresentation(ctx: Context, crossfade: bool): (steps: seq<Step>)
    ensures ctx.toView.None? <==> steps == []
    ensures ctx.toView.Some? ==> CompletesOnceLast(steps)
    ensures ctx.toView.Some? && !ctx.isAnimated ==> steps == [Complete(true)]
    ensures ctx.toView.Some? && ctx.isAnimated && crossfade ==>
              steps[0] == SetStart(Alpha(0.0)) && steps[1].Animate? && steps[1].end == Alpha(1.0) &&
              steps[1].curve == EaseOut
    ensures ctx.toView.Some? && ctx.isAnimated && !crossfade ==>
              steps[0] == SetStart(Translation(ctx.toView.value.fittedHeight + ctx.containerSafeBottom)) &&
              steps[1].Animate? && steps[1].end == Translation(0.0) && steps[1].curve == Spring(0.86, 0.0)
    ensures ctx.toView.Some? && ctx.isAnimated ==>
              |steps| == 3 && steps[1].duration == Fin(TransitionDuration(Some(ctx.toIsBeingPresented), crossfade))
  {
    match ctx.toView
    case None => []
    case Some(view) =>
      var duration := Fin(TransitionDuration(Some(ctx.toIsBeingPresented), crossfade));
      if !ctx.isAnimated then [Complete(true)]
      else if crossfade then
        [SetStart(Alpha(0.0)), Animate(duration, EaseOut, Alpha(1.0)), Complete(true)]
      else
        [SetStart(Translation(view.fittedHeight + ctx.containerSafeBottom)),
         Animate(duration, Spring(0.86, 0.0), Translation(0.0)),
         Complete(true)]
  }

  /** Above this dismissal velocity the slide-out runs linearly rather than easing in. */
  const FastFlickVelocity: real := 5.0

  function DismissCurve(velocity: real): (c: Curve)
    ensures c == Linear <==> velocity > FastFlickVelocity
    ensures c == EaseIn <==> velocity <= FastFlickVelocity
  {
    if velocity > FastFlickVelocity then Linear else EaseIn
  }

  /**
    Dismissal duration `min(duration, offset / velocity)` in Swift's
    floating point. A downward velocity shortens the base duration to the
    time the remaining distance takes at that speed, never lengthening it;
    a zero velocity falls back to the base duration when the remaining
    distance is not negative.
   */
  function DismissDuration(duration: real, offset: real, velocity: real): (r: Ext)
    ensures r.Fin? || r.NegInf?
    ensures r.Fin? ==> r.v <= duration
    ensures velocity != 0.0 ==> r == Fin(Min(duration, offset / velocity))
    ensures duration >= 0.0 && velocity > 0.0 && offset >= 0.0 ==> r.Fin? && 0.0 <= r.v
    ensures velocity == 0.0 && offset >= 0.0 ==> r == Fin(duration)
    ensures velocity == 0.0 && offset < 0.0 ==> r == NegInf
  {
    SwiftMin(Fin(duration), Div(Fin(offset), Fin(velocity)))
  }

  /** The dismissal duration samples: distance 300 or 10 at velocities 1000 and 200. */
  lemma DismissDurationSamples()
    ensures DismissDuration(DefaultDuration, 300.0, 1000.0) == Fin(0.21)
    ensures DismissDuration(DefaultDuration, 300.0, 200.0) == Fin(0.21)
    ensures DismissDuration(DefaultDuration, 10.0, 1000.0) == Fin(0.01)
  {
  }

  /**
    `animateDismissal`: without a source view nothing happens; unanimated,
    the transition completes at once; otherwise the container fades to 0 or
    slides down to the view's height over the dismissal duration, with the
    curve chosen by the velocity, and completion follows.
   */
  function AnimateDismissal(ctx: Context, crossfade: bool, velocity: real): (steps: seq<Step>)
    ensures ctx.fromView.None? <==> steps == []
    ensures ctx.fromView.Some? ==> CompletesOnceLast(steps)
    ensures ctx.fromView.Some? && !ctx.isAnimated ==> steps == [Complete(true)]
    ensures ctx.fromView.Some? && ctx.isAnimated ==>
              |steps| == 2 && steps[0].Animate? &&
              steps[0].curve == DismissCurve(velocity) &&
              steps[0].duration == DismissDuration(TransitionDuration(Some(ctx.toIsBeingPresented), crossfade),
                                                   ctx.fromView.value.boundsHeight - ctx.containerTy, velocity) &&
              steps[0].end == (if crossfade then Alpha(0.0) else Translation(ctx.fromView.value.boundsHeight))
  {
    match ctx.fromView
    case None => []
    case Some(view) =>
      var duration := TransitionDuration(Some(ctx.toIsBeingPresented), crossfade);
      if !ctx.isAnimated then [Complete(true)]
      else
        var offset := view.boundsHeight - ctx.containerTy;
        var end := if crossfade then Alpha(0.0) else Translation(view.boundsHeight);
        [Animate(DismissDuration(duration, offset, velocity), DismissCurve(velocity), end), Complete(true)]
  }

  /** The animator's result: its remembered dismissal velocity and the transition's steps. */
  datatype Animation = Animation(dismissVelocity: real, steps: seq<Step>)

  /**
    `animateTransition`: takes the dismissal velocity from the panel's
    presentation controller when there is one (keeping its own otherwise),
    then presents or dismisses. The transition completes exactly once
    whenever the view it needs exists, and never otherwise.
   */
  function AnimateTransition(dismissVelocity: real, ctx: Context, crossfade: bool): (r: Animation)
    ensures r.dismissVelocity == ctx.panelDismissVelocity.GetOr(dismissVelocity)
    ensures TransitionFor(ctx.toIsBeingPresented) == Presenting ==> r.steps == AnimatePresentation(ctx, crossfade)
    ensures TransitionFor(ctx.toIsBeingPresented) == Dismissing ==>
              r.steps == AnimateDismissal(ctx, crossfade, r.dismissVelocity)
    ensures var needed := if TransitionFor(ctx.toIsBeingPresented) == Presenting then ctx.toView else ctx.fromView;
            Completions(r.steps) == if needed.Some? then 1 else 0
  {
    var velocity := ctx.panelDismissVelocity.GetOr(dismissVelocity);
    var steps := match TransitionFor(ctx.toIsBeingPresented)
      case Presenting => AnimatePresentation(ctx, crossfade)
      case Dismissing => AnimateDismissal(ctx, crossfade, velocity);
    assert steps != [] ==> Completions(steps) == 1 by {
      if steps != [] {
        CompletesOnceLastCount(steps);
      }
    }
    Animation(velocity, steps)
  }
}
