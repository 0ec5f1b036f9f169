/**
  From a committed drag to the dismissal animation: the presentation
  controller records the release velocity and asks for dismissal, and the
  animator picks that velocity up from it to choose the duration and curve.
 */
module PanelDismissal {
  import opened Wrappers
  import opened Geometry
  import opened Float
  import opened PanEvents
  import opened PanelGestures
  import opened PanelAnimation

  /**
    The transition context of the dismissal a committed drag asks for: the
    panel's view of height `height` is leaving, the container stands at the
    panel's translation, and the presentation controller offers its
    recorded velocity.
   */
  function DismissalContext(q: Panel, to: Option<bool>, height: real, fitted: real, safeBottom: real): (ctx: Context)
    ensures TransitionFor(ctx.toIsBeingPresented) == Dismissing <==> to != Some(true)
    ensures ctx.panelDismissVelocity == Some(q.dismissVelocity) && ctx.containerTy == q.ty
    ensures ctx.fromView == Some(ViewInfo(height, fitted)) && ctx.isAnimated
  {
    Context(to, true, None, Some(ViewInfo(height, fitted)), Some(q.dismissVelocity), q.ty, safeBottom)
  }

  /**
    A drag released downwards past rest dismisses the panel with the
    release velocity `v`: over `min(0.21, (height - ty) / v)`, never longer
    than 0.21, linearly for a fast flick and easing in otherwise, to the
    view's height (or to transparent when cross-fading), and the transition
    then completes. Whatever velocity
    the animator held before is replaced. The translation has no upper
    bound: a drag carried past the view's height gives a negative
    duration, otherwise it is never negative.
   */
  lemma CommittedDragDismisses(p: Panel, o: Owner, e: PanEvent, animatorVelocity: real, crossfade: bool,
                               to: Option<bool>, height: real, fitted: real, safeBottom: real)
    requires Valid(p) && p.session == Some(o) && Commits(e)
    requires to != Some(true)
    ensures var q := Release(p, o, e);
            var a := AnimateTransition(animatorVelocity, DismissalContext(q, to, height, fitted, safeBottom), crossfade);
            var d := Min(DefaultDuration, (height - p.ty) / e.velocity.y);
            q.dismissCalls == p.dismissCalls + 1 &&
            a.dismissVelocity == e.velocity.y &&
            d <= DefaultDuration &&
            (height >= p.ty ==> 0.0 <= d) && (height < p.ty ==> d < 0.0) &&
            a.steps == [Animate(Fin(d), DismissCurve(e.velocity.y),
                                if crossfade then Alpha(0.0) else Translation(height)),
                        Complete(true)]
  {
    var q := Release(p, o, e);
    assert q.ty == p.ty && q.dismissVelocity == e.velocity.y;
    var ctx := DismissalContext(q, to, height, fitted, safeBottom);
    assert TransitionDuration(Some(ctx.toIsBeingPresented), crossfade) == DefaultDuration;
    assert height >= p.ty ==> (height - p.ty) / e.velocity.y >= 0.0;
    assert height < p.ty ==> (height - p.ty) / e.velocity.y < 0.0;
  }
}
