/**
  Gesture handling of `PanelPresentationController`: which recognizers may
  begin, and the drag-to-dismiss state machine driven by the pan
  recognizer's events. A drag opens a scroll session on the scroll view
  that owns the touch, moves the panel down while it lasts, and on its
  terminal event either commits a dismissal or springs the panel back.
 */
module PanelGestures {
  import opened Wrappers
  import opened Geometry
  import opened Float
  import opened ScrollGeometry
  import opened PanEvents

  // ---------------------------------------------------------------------------
  // Begin rules
  // ---------------------------------------------------------------------------

  /** The controller's two recognizers, and any other that asks it. */
  datatype Recognizer = DismissPan | DismissTap | OtherRecognizer

  /**
    `gestureRecognizerShouldBegin`. `canBeDismissed` is the presented
    controller's `panelCanBeDismissed`, absent when it is not
    `PanelPresentable`. `tapLocation` is the touch in the panel background's
    coordinates and `background` that view's bounds.
   */
  function ShouldBegin(recognizer: Recognizer, canBeDismissed: Option<bool>,
                       tapLocation: Point, background: Rect): (r: bool)
    ensures canBeDismissed == Some(false) ==> !r
    ensures canBeDismissed != Some(false) && recognizer != DismissTap ==> r
    ensures canBeDismissed != Some(false) && recognizer == DismissTap ==>
              (r <==> !Contains(background, tapLocation))
  {
    if canBeDismissed == Some(false) then false
    else if recognizer == DismissPan then true
    else if recognizer == DismissTap then !Contains(background, tapLocation)
    else true
  }

  /** Only the controller's own pan recognizer runs together with others. */
  function ShouldRecognizeSimultaneously(recognizer: Recognizer): (r: bool)
    ensures r <==> recognizer == DismissPan
  {
    match recognizer
    case DismissPan => true
    case _ => false
  }

  // ---------------------------------------------------------------------------
  // Drag-to-dismiss state machine
  // ---------------------------------------------------------------------------

  /**
    What the controller observes when an event arrives besides the event
    itself: the container scroll view's frame, whether the content scroll
    view is tracking a touch, and the current state of the container scroll
    view and of the observed content scroll view (`content` is ignored when
    no content scroll view is observed). The scroll views scroll on their
    own between pan events, so each event sees their latest state.
   */
  datatype Surroundings = Surroundings(
    containerFrame: Rect,
    contentTracking: bool,
    container: ScrollView,
    content: ScrollView)

  /** A pan event together with its surroundings. */
  datatype Tick = Tick(event: PanEvent, around: Surroundings)

  /** Which scroll view a session belongs to. */
  datatype Owner = ContainerScroll | ContentScroll

  /**
    The controller's drag state. `content` is the scroll view the content
    observer watches (set once the presented controller supplies one and
    never cleared); `ty` is the panel container's vertical translation;
    `session` is the open scroll session; `dismissCalls` counts requested
    dismissals and `springBacks` lists the initial velocity of every
    spring-back animation started.

    A session records which of the two scroll views it belongs to, where
    the controller captures the scroll view itself. The two agree as long
    as the observed content scroll view is not replaced during a gesture:
    `ObserveContentScroll` is the only operation that replaces it, and no
    pan event calls it, so within `Run` a session always acts on the view it
    began on.
   */
  datatype Panel = Panel(
    container: ScrollView,
    content: Option<ScrollView>,
    ty: real,
    session: Option<Owner>,
    dismissVelocity: real,
    dismissCalls: nat,
    springBacks: seq<Ext>)

  /** A session never belongs to a content scroll view that does not exist, and the panel never rises above rest. */
  predicate Valid(p: Panel) {
    (p.session == Some(ContentScroll) ==> p.content.Some?) && p.ty >= 0.0
  }

  /** The panel before any gesture: at rest, no session, nothing requested. */
  function Initial(container: ScrollView, content: Option<ScrollView>): (r: Panel)
    ensures Valid(r) && r.session.None? && r.dismissCalls == 0 && r.springBacks == []
  {
    Panel(container, content, 0.0, None, 0.0, 0, [])
  }

  function ScrollOf(p: Panel, o: Owner): ScrollView
    requires o == ContentScroll ==> p.content.Some?
  {
    match o
    case ContainerScroll => p.container
    case ContentScroll => p.content.value
  }

  function WithScroll(p: Panel, o: Owner, s: ScrollView): (r: Panel)
    requires o == ContentScroll ==> p.content.Some?
    ensures r.content.Some? == p.content.Some?
    ensures ScrollOf(r, o) == s
    ensures r.ty == p.ty && r.session == p.session && r.dismissCalls == p.dismissCalls
    ensures r.springBacks == p.springBacks && r.dismissVelocity == p.dismissVelocity
  {
    match o
    case ContainerScroll => p.(container := s)
    case ContentScroll => p.(content := Some(s))
  }

  /**
    `updateContentScrollViewIfNeeded`'s effect on the observer: a supplied
    scroll view replaces the observed one; without one the old observation
    stays in place.
   */
  function ObserveContentScroll(p: Panel, supplied: Option<ScrollView>): (r: Panel)
    ensures Valid(p) ==> Valid(r)
    ensures supplied.Some? ==> r.content == supplied
    ensures supplied.None? ==> r == p
    ensures r.session == p.session && r.ty == p.ty
  {
    if supplied.Some? then p.(content := supplied) else p
  }

  /**
    The latest state of the scroll views, as an event sees them: scrolling
    between events changes their offsets and sizes but not which views are
    observed, the session, or the panel's translation.
   */
  function Install(p: Panel, around: Surroundings): (r: Panel)
    ensures Valid(p) ==> Valid(r)
    ensures r.container == around.container
    ensures r.content.Some? == p.content.Some?
    ensures p.content.Some? ==> r.content == Some(around.content)
    ensures r == p.(container := r.container, content := r.content)
  {
    p.(container := around.container, content := if p.content.Some? then Some(around.content) else None)
  }

  /** Only the latest observation counts: installing twice is installing the second. */
  lemma InstallLatest(p: Panel, a: Surroundings, b: Surroundings)
    ensures Install(Install(p, a), b) == Install(p, b)
  {
  }

  /** The scroll view a new session would belong to: the content one when it is tracking. */
  function ChosenOwner(p: Panel, around: Surroundings): (o: Owner)
    ensures o == ContentScroll <==> p.content.Some? && around.contentTracking
  {
    if p.content.Some? && around.contentTracking then ContentScroll else ContainerScroll
  }

  /**
    Whether a drag beginning at `location` may move the panel: it started
    outside the container scroll view, or the chosen scroll view is at its
    top, or its content does not scroll.
   */
  predicate CanStartSession(p: Panel, around: Surroundings, location: Point, precision: real) {
    var s := ScrollOf(p, ChosenOwner(p, around));
    !Contains(around.containerFrame, location) || IsAtTop(s, precision) || !ContentExceedsBounds(s, precision)
  }

  function StopContent(content: Option<ScrollView>): (r: Option<ScrollView>)
    ensures r.Some? == content.Some?
  {
    match content
    case Some(s) => Some(StopVerticalScrolling(s).view)
    case None => None
  }

  /**
    `startScrollSession`: when the drag may move the panel, opens a session
    on the chosen scroll view and halts both scroll views inside their
    scrollable ranges; otherwise changes nothing.
   */
  function StartScrollSession(p: Panel, around: Surroundings, location: Point, precision: real): (r: Panel)
    requires Valid(p)
    ensures Valid(r)
    ensures CanStartSession(p, around, location, precision) ==>
              r == p.(session := Some(ChosenOwner(p, around)),
                       container := StopVerticalScrolling(p.container).view,
                       content := StopContent(p.content))
    ensures !CanStartSession(p, around, location, precision) ==> r == p
  {
    if !CanStartSession(p, around, location, precision) then p
    else p.(session := Some(ChosenOwner(p, around)),
            container := StopVerticalScrolling(p.container).view,
            content := StopContent(p.content))
  }

  /** A terminal event commits the dismissal exactly when it ended (not cancelled or failed) moving down. */
  predicate Commits(e: PanEvent) {
    e.state == Ended && e.translation.y > 0.0 && e.velocity.y > 0.0
  }

  /**
    Initial velocity of the spring-back animation, `-(velocity / translation)`
    with Swift's floating-point division (a zero translation gives an
    infinity or NaN).
   */
  function SpringVelocity(e: PanEvent): (r: Ext)
    ensures e.translation.y != 0.0 ==> r == Fin(-(e.velocity.y / e.translation.y))
    ensures e.translation.y == 0.0 ==>
              (e.velocity.y == 0.0 <==> r.NaN?) &&
              (e.velocity.y > 0.0 ==> r == NegInf) &&
              (e.velocity.y < 0.0 ==> r == PosInf)
  {
    Neg(Div(Fin(e.velocity.y), Fin(e.translation.y)))
  }

  /**
    `.changed` with a session open: the panel follows the finger downwards
    only; the owning scroll view bounces only when scrolled into its content
    or dragged upwards, and shows its indicator only while the panel rests.
   */
  function Drag(p: Panel, o: Owner, e: PanEvent): (r: Panel)
    requires Valid(p) && p.session == Some(o)
    ensures Valid(r) && r.session == p.session
    ensures r.ty >= 0.0 && r.ty >= e.translation.y
    ensures e.translation.y >= 0.0 ==> r.ty == e.translation.y
    ensures e.translation.y <= 0.0 ==> r.ty == 0.0
    ensures ScrollOf(r, o).showsIndicator <==> r.ty == 0.0
    ensures ScrollOf(r, o).bounces <==> RelativeOffset(ScrollOf(p, o)).y > 0.0 || e.translation.y < 0.0
    ensures ScrollOf(r, o) == ScrollOf(p, o).(bounces := ScrollOf(r, o).bounces,
                                              showsIndicator := ScrollOf(r, o).showsIndicator)
    ensures r.dismissCalls == p.dismissCalls && r.springBacks == p.springBacks
  {
    var s := ScrollOf(p, o);
    var offset := Max(0.0, e.translation.y);
    var s' := s.(bounces := RelativeOffset(s).y > 0.0 || e.translation.y < 0.0, showsIndicator := offset <= 0.0);
    WithScroll(p, o, s').(ty := offset)
  }

  /**
    A terminal event with a session open: the session closes; a committing
    event records its velocity and requests dismissal; any other re-enables
    bouncing and, when the panel is displaced, halts the scroll view at its
    top and springs the panel back to rest.
   */
  function Release(p: Panel, o: Owner, e: PanEvent): (r: Panel)
    requires Valid(p) && p.session == Some(o) && e.state.IsTerminal()
    ensures Valid(r) && r.session.None? && r.content.Some? == p.content.Some?
    ensures Commits(e) ==> r == p.(session := None, dismissVelocity := e.velocity.y, dismissCalls := p.dismissCalls + 1)
    ensures !Commits(e) ==> r.dismissCalls == p.dismissCalls && r.dismissVelocity == p.dismissVelocity
    ensures !Commits(e) ==> ScrollOf(r, o).bounces && r.ty == 0.0
    ensures !Commits(e) && p.ty == 0.0 ==> r == WithScroll(p, o, ScrollOf(p, o).(bounces := true)).(session := None)
    ensures !Commits(e) && p.ty != 0.0 ==> r.springBacks == p.springBacks + [SpringVelocity(e)]
    ensures !Commits(e) && p.ty != 0.0 ==> RelativeOffset(ScrollOf(r, o)).y == 0.0
  {
    var closed := p.(session := None);
    if Commits(e) then
      closed.(dismissVelocity := e.velocity.y, dismissCalls := p.dismissCalls + 1)
    else
      var s := ScrollOf(p, o).(bounces := true);
      if p.ty == 0.0 then WithScroll(closed, o, s)
      else
        var settled := SetAtTop(StopVerticalScrolling(s).view);
        WithScroll(closed, o, settled).(ty := 0.0, springBacks := p.springBacks + [SpringVelocity(e)])
  }

  /**
    `handlePan`: one pan event, with `precision` the size of a screen pixel.
    The event acts on the scroll views as they are now.
   */
  function HandlePan(p: Panel, t: Tick, precision: real): (r: Panel)
    requires Valid(p)
    ensures Valid(r)
    ensures t.event.state != Began && p.session.None? ==> r == Install(p, t.around)
    ensures t.event.state.IsTerminal() ==> r.session.None?
    ensures t.event.state == Changed ==> r.session == p.session
    ensures t.event.state == Changed && p.session.Some? ==> r == Drag(Install(p, t.around), p.session.value, t.event)
    ensures t.event.state.IsTerminal() && p.session.Some? ==> r == Release(Install(p, t.around), p.session.value, t.event)
    ensures t.event.state == Began && p.session.None? ==>
              CanStartSession(Install(p, t.around), t.around, t.event.location, precision) || r == Install(p, t.around)
    ensures t.event.state == Began && CanStartSession(Install(p, t.around), t.around, t.event.location, precision) ==>
              r.session == Some(ChosenOwner(p, t.around))
    ensures t.event.state == Began ==> r.ty == p.ty && r.dismissCalls == p.dismissCalls
  {
    var e := t.event;
    var seen := Install(p, t.around);
    var q := if e.state == Began then StartScrollSession(seen, t.around, e.location, precision) else seen;
    match q.session
    case None => q
    case Some(o) =>
      match e.state
      case Began => q
      case Changed => Drag(q, o, e)
      case _ => Release(q, o, e)
  }

  /** Feeds a sequence of pan events to the controller in order. */
  function Run(p: Panel, ticks: seq<Tick>, precision: real): (r: Panel)
    requires Valid(p)
    ensures Valid(r)
    decreases |ticks|
  {
    if ticks == [] then p else Run(HandlePan(p, ticks[0], precision), ticks[1..], precision)
  }

  /** Running two event sequences back to back is running their concatenation. */
  lemma {:induction false} RunConcat(p: Panel, a: seq<Tick>, b: seq<Tick>, precision: real)
    requires Valid(p)
    ensures Run(p, a + b, precision) == Run(Run(p, a, precision), b, precision)
    decreases |a|
  {
    if a == [] {
      assert a + b == b;
    } else {
      assert (a + b)[0] == a[0];
      assert (a + b)[1..] == a[1..] + b;
      RunConcat(HandlePan(p, a[0], precision), a[1..], b, precision);
    }
  }

  /** Events that keep a session as it is: changes only. */
  predicate AllChanged(ticks: seq<Tick>) {
    forall i :: 0 <= i < |ticks| ==> ticks[i].event.state == Changed
  }

  /** However many `.changed` events arrive, the open session (or its absence) stays as it is. */
  lemma {:induction false} ChangesKeepSession(p: Panel, ticks: seq<Tick>, precision: real)
    requires Valid(p) && AllChanged(ticks)
    ensures Run(p, ticks, precision).session == p.session
    ensures Run(p, ticks, precision).dismissCalls == p.dismissCalls
    decreases |ticks|
  {
    if ticks != [] {
      assert ticks[0].event.state == Changed;
      var q := HandlePan(p, ticks[0], precision);
      assert q.dismissCalls == p.dismissCalls by {
        if p.session.Some? {
          assert q == Drag(Install(p, ticks[0].around), p.session.value, ticks[0].event);
        }
      }
      assert AllChanged(ticks[1..]) by {
        forall i | 0 <= i < |ticks[1..]| ensures ticks[1..][i].event.state == Changed {
          assert ticks[1..][i] == ticks[i + 1];
        }
      }
      ChangesKeepSession(q, ticks[1..], precision);
    }
  }

  /** Any event sequence whose last event is terminal leaves no session open. */
  lemma {:induction false} TerminalClosesSession(p: Panel, ticks: seq<Tick>, precision: real)
    requires Valid(p) && |ticks| > 0 && ticks[|ticks| - 1].event.state.IsTerminal()
    ensures Run(p, ticks, precision).session.None?
  {
    var prefix := ticks[..|ticks| - 1];
    assert ticks == prefix + [ticks[|ticks| - 1]];
    RunConcat(p, prefix, [ticks[|ticks| - 1]], precision);
    var q := Run(p, prefix, precision);
    assert Run(q, [ticks[|ticks| - 1]], precision) == HandlePan(q, ticks[|ticks| - 1], precision);
  }

  /** One complete gesture: a `.began`, any number of `.changed`, then one terminal event. */
  predicate IsGesture(ticks: seq<Tick>) {
    |ticks| >= 2 &&
    ticks[0].event.state == Began &&
    AllChanged(ticks[1..|ticks| - 1]) &&
    ticks[|ticks| - 1].event.state.IsTerminal()
  }

  /**
    A gesture starting with no session open and refused at `.began` changes
    nothing of the panel's own: it does not move, no session opens and
    nothing is dismissed or sprung back. Only the scroll views' own
    scrolling shows, as their latest state.
   */
  lemma {:induction false} RefusedGestureChangesNothing(p: Panel, ticks: seq<Tick>, precision: real)
    requires Valid(p) && p.session.None? && IsGesture(ticks)
    requires !CanStartSession(Install(p, ticks[0].around), ticks[0].around, ticks[0].event.location, precision)
    ensures Run(p, ticks, precision) == Install(p, ticks[|ticks| - 1].around)
  {
    var q := HandlePan(p, ticks[0], precision);
    assert q == Install(p, ticks[0].around);
    var rest := ticks[1..];
    forall i | 0 <= i < |rest| ensures rest[i].event.state != Began {
      if i < |rest| - 1 {
        assert rest[i] == ticks[1..|ticks| - 1][i];
      } else {
        assert rest[i] == ticks[|ticks| - 1];
      }
    }
    NoSessionIsInert(q, rest, precision);
    assert rest[|rest| - 1] == ticks[|ticks| - 1];
    InstallLatest(p, ticks[0].around, ticks[|ticks| - 1].around);
  }

  /**
    Without a session, events other than `.began` change nothing but the
    observed state of the scroll views.
   */
  lemma {:induction false} NoSessionIsInert(p: Panel, ticks: seq<Tick>, precision: real)
    requires Valid(p) && p.session.None?
    requires forall i :: 0 <= i < |ticks| ==> ticks[i].event.state != Began
    ensures ticks == [] ==> Run(p, ticks, precision) == p
    ensures ticks != [] ==> Run(p, ticks, precision) == Install(p, ticks[|ticks| - 1].around)
    decreases |ticks|
  {
    if ticks != [] {
      var q := HandlePan(p, ticks[0], precision);
      assert q == Install(p, ticks[0].around);
      var rest := ticks[1..];
      NoSessionIsInert(q, rest, precision);
      if rest != [] {
        assert rest[|rest| - 1] == ticks[|ticks| - 1];
        InstallLatest(p, ticks[0].around, ticks[|ticks| - 1].around);
      }
    }
  }

  /**
    Within one gesture, a session begun at `.began` stays with the same
    scroll view through every `.changed` event, and the gesture's terminal
    event closes it; the gesture requests at most one dismissal.
   */
  lemma GestureSessionLifecycle(p: Panel, ticks: seq<Tick>, precision: real)
    requires Valid(p) && IsGesture(ticks)
    ensures var begun := HandlePan(p, ticks[0], precision);
            Run(begun, ticks[1..|ticks| - 1], precision).session == begun.session
    ensures Run(p, ticks, precision).session.None?
    ensures Run(p, ticks, precision).dismissCalls <= p.dismissCalls + 1
  {
    var n := |ticks|;
    var begun := HandlePan(p, ticks[0], precision);
    var middle := ticks[1..n - 1];
    ChangesKeepSession(begun, middle, precision);
    assert ticks == [ticks[0]] + middle + [ticks[n - 1]];
    RunConcat(p, [ticks[0]] + middle, [ticks[n - 1]], precision);
    RunConcat(p, [ticks[0]], middle, precision);
    assert Run(p, [ticks[0]], precision) == begun;
    var before := Run(begun, middle, precision);
    assert Run(before, [ticks[n - 1]], precision) == HandlePan(before, ticks[n - 1], precision);
    TerminalClosesSession(p, ticks, precision);
  }

  /**
    Gestures run one after another never find a session already open when
    they begin: each gesture's `.began` sees the previous one closed.
   */
  lemma {:induction false} GesturesBeginWithNoSession(p: Panel, first: seq<Tick>, second: seq<Tick>, precision: real)
    requires Valid(p) && IsGesture(first) && IsGesture(second)
    ensures Run(p, first, precision).session.None?
    ensures Run(p, first + second, precision).session.None?
  {
    GestureSessionLifecycle(p, first, precision);
    RunConcat(p, first, second, precision);
    GestureSessionLifecycle(Run(p, first, precision), second, precision);
  }

  /** Release samples: translation 40 with velocity 120 commits; velocity -10 springs back. */
  lemma ReleaseSamples(p: Panel, o: Owner, loc: Point)
    requires Valid(p) && p.session == Some(o) && p.ty == 40.0
    ensures var r := Release(p, o, PanEvent(Ended, loc, Point(0.0, 40.0), Point(0.0, 120.0)));
            r.dismissVelocity == 120.0 && r.dismissCalls == p.dismissCalls + 1
    ensures var r := Release(p, o, PanEvent(Ended, loc, Point(0.0, 40.0), Point(0.0, -10.0)));
            r.dismissCalls == p.dismissCalls && r.ty == 0.0 && r.springBacks == p.springBacks + [Fin(0.25)]
  {
  }
}
