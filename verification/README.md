# PanelPresenter in Dafny

A Dafny model of the interactive core of PanelPresenter, a UIKit library
that presents a view controller as a bottom sheet. The sheet can be dragged
down to dismiss, it hands a drag off between its inner scroll views and the
panel itself, and it springs back when a drag is released without
committing.

The model covers four parts of the library:

- **`UIScrollView` helpers** (`ScrollGeometry`). These are the offset
  measured from the adjusted content inset, the at-top test and its setter,
  the point-in-content test, the content-exceeds-bounds test, and the clamp
  that halts vertical scrolling.
- **`PanelPresentationController`**:
  - `PanelLayout` covers the container's insets, the indicator insets, the
    header background fade, the top and keyboard insets, the once-only view
    set-up and the option setters.
  - `PanelGestures` covers the recognizer begin rules and the
    drag-to-dismiss state machine: scroll sessions, dragging, commit and
    spring-back.
- **`PanelAnimationController`** (`PanelAnimation`). This is the transition
  direction, the durations, and the start, end, curve and completion of the
  presentation and dismissal animations. `PanelDismissal` joins a
  committed drag to the dismissal animation it leads to.
- **The older self-contained `PanelPresenter`** (`LegacyPresenter`,
  `LegacyTransition`). This is its scroll-view layout, its recognizer rules,
  its drag and bounce-back handling, and its own transition animator.

Modelling conventions:

- **Floating point.** UIKit `CGFloat` values are Dafny `real`s. Where the
  source can divide by zero, a value is a `Float.Ext`: a real, ±infinity or
  NaN. Swift's `min`/`max` are modelled with their NaN behaviour.
- **Rectangles.** `CGRect` containment is half-open on the standardized
  rectangle. The height of an inset rectangle is the absolute value that
  `CGRect.height` reports.
- **Animations** are represented by where they end, plus a log:
  - the spring-back initial velocities;
  - the number of dismissals requested;
  - for transitions, the list of steps they take (set a start value,
    animate to an end value with a duration and curve, complete the
    transition).
- **UIKit inputs become parameters.** Screen scale, gesture locations,
  whether a scroll view is tracking, the keyboard overlap and the
  accessibility preferences are all passed in.

## Model

| member | source | states |
|---|---|---|
| ScrollGeometry.WithRelativeOffset | Sources/PanelPresenter/ScrollView/UIScrollView.swift:5-18 | setting the relative offset makes the getter return exactly the assigned point and changes nothing but the content offset |
| ScrollGeometry.WriteBackReadIsIdentity | Sources/PanelPresenter/ScrollView/UIScrollView.swift:5-18 | writing back the relative offset just read leaves the scroll view unchanged (getter/setter round trip) |
| ScrollGeometry.RelativeOffsetDeterminesOffset | Sources/PanelPresenter/ScrollView/UIScrollView.swift:5-18 | two relative-offset writes give the same view exactly when they write the same point |
| ScrollGeometry.SetAtTop | Sources/PanelPresenter/ScrollView/UIScrollView.swift:20-29 | after the `isAtTop` setter, the getter is true for every pixel precision, the relative vertical offset is 0, the horizontal offset is kept and nothing else changes |
| ScrollGeometry.PointInScrollContentBox | Sources/PanelPresenter/ScrollView/UIScrollView.swift:33-38 | a point outside the bounds is never in the content; inside the bounds it is in the content exactly when it lies in the half-open box from the origin to the content size |
| ScrollGeometry.ContentExceedsBoundsPlain | Sources/PanelPresenter/ScrollView/UIScrollView.swift:41-44 | when the adjusted insets fit in the bounds, content exceeds the bounds exactly when its height is more than one pixel beyond the bounds height less the insets |
| ScrollGeometry.StopVerticalScrolling | Sources/PanelPresenter/ScrollView/UIScrollView.swift:51-59 | the vertical offset ends inside the scrollable range, clamped to the nearer end when outside it; an in-range offset is untouched; x and all else are kept; the returned difference is new minus old offset |
| ScrollGeometry.StopVerticalScrollingIdempotent | Sources/PanelPresenter/ScrollView/UIScrollView.swift:51-59 | halting twice is halting once, and the second call returns 0 |
| ScrollGeometry.StoppedIsNotBouncing | Sources/PanelPresenter/ScrollView/UIScrollView.swift:51-59 | after halting, the relative vertical offset is never negative, so no top bounce survives |
| PanelLayout.ContainerContentInset | Sources/PanelPresenter/Controllers/PanelPresentationController.swift:454-461 | the container's only inset is a non-negative top inset that bottom-aligns shorter content exactly, and is 0 for content at least as tall as the frame |
| PanelLayout.ApplyContainerInset | Sources/PanelPresenter/Controllers/PanelPresentationController.swift:454-464 | the inset is reassigned exactly when it differs from the wanted one, and only the inset changes |
| PanelLayout.ApplyContainerInsetIdempotent | Sources/PanelPresenter/Controllers/PanelPresentationController.swift:454-464 | a second update with nothing changed reassigns nothing |
| PanelLayout.ShortContentDoesNotScroll | Sources/PanelPresenter/Controllers/PanelPresentationController.swift:453-470 | with no inset adjustment, content no taller than the frame fills the visible height exactly and never counts as exceeding the bounds |
| PanelLayout.IndicatorTopInset | Sources/PanelPresenter/Controllers/PanelPresentationController.swift:470-473 | the indicator's top inset is the header height (or 8 without a header), plus how far the content is pulled down past its top |
| PanelLayout.HeaderFadeOffset | Sources/PanelPresenter/Controllers/PanelPresentationController.swift:384-389 | the header fade reads the content scroll view's offset measured from its adjusted top inset when one is supplied, and the container's raw offset otherwise |
| PanelLayout.HeaderBackgroundAlpha | Sources/PanelPresenter/Controllers/PanelPresentationController.swift:379-392 | the header background opacity is in [0, 1]: 1 when fading is off; otherwise 0 at or above the top, 1 from 20 points down, and offset/20 in between |
| PanelLayout.HeaderBackgroundAlphaMonotone | Sources/PanelPresenter/Controllers/PanelPresentationController.swift:379-392 | scrolling further down never lowers the header background opacity |
| PanelLayout.HeaderBackgroundAlphaSamples | Sources/PanelPresenter/Controllers/PanelPresentationController.swift:390-391 | offsets 0, 10 and 25 give opacities 0, 0.5 and 1 |
| PanelLayout.ContainerScrollViewDidUpdate | Sources/PanelPresenter/Controllers/PanelPresentationController.swift:453-475 | the container is re-inset to bottom-align content; its pan recognizer stays on the scroll view exactly when the content exceeds the bounds; the indicator sits at its base exactly when not bouncing, and otherwise at the header-based inset plus the top bounce; the header opacity is the fade of the offset the header reads (the content scroll view's when there is one), in [0, 1] |
| PanelLayout.ContentScrollViewDidUpdate | Sources/PanelPresenter/Controllers/PanelPresentationController.swift:477-494 | exactly one of the content scroll view and the container scrolls, chosen by whether the content exceeds its bounds; the height constraint tracks the content height; the background moves by the top bounce, and only while bouncing; the indicator inset is 8 plus that bounce; the header opacity is the fade of the presentable's scroll view, or of the container's raw offset when there is none; when the presentable's scroll view is this one, the fade of this view's relative offset |
| PanelLayout.KeyboardBottomInset | Sources/PanelPresenter/Controllers/PanelPresentationController.swift:415-427 | the keyboard inset is positive exactly when the keyboard overlaps the safe area, and is then 8 more than the overlap; otherwise it is 0 |
| PanelLayout.UpdateKeyboardBottomInset | Sources/PanelPresenter/Controllers/PanelPresentationController.swift:415-430 | the inset becomes the keyboard inset and is reassigned exactly when it differs |
| PanelLayout.UpdateKeyboardBottomInsetIdempotent | Sources/PanelPresenter/Controllers/PanelPresentationController.swift:415-430 | a second keyboard update reassigns nothing |
| PanelLayout.UpdateTopInset | Sources/PanelPresenter/Controllers/PanelPresentationController.swift:361-367 | an existing top constraint becomes 0 for a full-height panel and the top inset otherwise; a missing constraint stays missing |
| PanelLayout.ApplyHeaderVisibility | Sources/PanelPresenter/Controllers/PanelPresentationController.swift:369-377 | afterwards a shown header is opaque with its height as extra top safe area, and a hidden one is transparent with none |
| PanelLayout.SetUpViews | Sources/PanelPresenter/Controllers/PanelPresentationController.swift:293-359 | set-up runs only once, and only with a container view and a presented view; it then leaves the top constraint at the top inset and the header consistent; otherwise it changes nothing |
| PanelLayout.SetUpViewsIdempotent | Sources/PanelPresenter/Controllers/PanelPresentationController.swift:293-294 | a second set-up changes nothing |
| PanelLayout.SetShowsHeader | Sources/PanelPresenter/Controllers/PanelPresentationController.swift:25-28 | visibility is re-applied only when loaded and the value changed; a real change on a loaded panel leaves the header consistent (header opacity and extra top safe-area inset both match the shown state), whatever state it was in |
| PanelLayout.SetHeaderHeight | Sources/PanelPresenter/Controllers/PanelPresentationController.swift:31-35 | once loaded, the extra top safe-area inset becomes the new height whether or not the header is shown |
| PanelLayout.SetHeaderHeightBreaksHiddenHeader | Sources/PanelPresenter/Controllers/PanelPresentationController.swift:31-35 | a loaded panel with a hidden header is consistent before the height changes and inconsistent after |
| PanelLayout.ToggleHeaderRepairs | Sources/PanelPresenter/Controllers/PanelPresentationController.swift:25-28 | hiding the header after showing it repairs a hidden header left inconsistent by a height change: the extra top safe-area inset is 0 again |
| PanelLayout.SetHeaderHeightCorrected | Sources/PanelPresenter/Controllers/PanelPresentationController.swift:31-35 | changing the height keeps the header consistent; a shown header gets the new height as its safe-area inset |
| PanelLayout.SetTopInset | Sources/PanelPresenter/Controllers/PanelPresentationController.swift:50-53 | once loaded, the top constraint is brought up to date; before loading it is untouched |
| PanelLayout.SetExtendsToFullHeight | Sources/PanelPresenter/Controllers/PanelPresentationController.swift:57-60 | once loaded, the top constraint is recomputed from the new option: 0 for a full-height panel, back to `topInset` otherwise; before loading it is untouched |
| PanelGestures.ShouldBegin | Sources/PanelPresenter/Controllers/PanelPresentationController.swift:498-510 | nothing begins when the panel refuses dismissal; otherwise the pan always begins and a tap begins exactly outside the panel background |
| PanelGestures.ShouldRecognizeSimultaneously | Sources/PanelPresenter/Controllers/PanelPresentationController.swift:512-514 | only the controller's own pan recognizer runs together with others |
| PanelGestures.Initial | Sources/PanelPresenter/Controllers/PanelPresentationController.swift:78-90 | a new panel rests, has no scroll session and has requested nothing |
| PanelGestures.ObserveContentScroll | Sources/PanelPresenter/Controllers/PanelPresentationController.swift:395-403 | a supplied content scroll view replaces the observed one; without one the old observation remains |
| PanelGestures.ChosenOwner | Sources/PanelPresenter/Controllers/PanelPresentationController.swift:527-532 | the session goes to the content scroll view exactly when one is observed and tracking a touch |
| PanelGestures.StartScrollSession | Sources/PanelPresenter/Controllers/PanelPresentationController.swift:526-541 | when the drag started outside the container scroll view, or the chosen view is at its top or cannot scroll, a session opens on it and both scroll views are halted; otherwise nothing changes |
| PanelGestures.Drag | Sources/PanelPresenter/Controllers/PanelPresentationController.swift:557-563 | the panel follows the finger downwards only; the scroll view bounces exactly when scrolled into its content or dragged up; the indicator shows exactly while the panel rests |
| PanelGestures.Release | Sources/PanelPresenter/Controllers/PanelPresentationController.swift:564-592 | the session closes. An ended downward drag records its velocity and requests one dismissal. Any other release requests none and re-enables bouncing; a displaced panel springs back to 0 with initial velocity −(velocity/translation) and its scroll view is set at its top |
| PanelGestures.SpringVelocity | Sources/PanelPresenter/Controllers/PanelPresentationController.swift:583-584 | for a non-zero translation, the spring's initial velocity is −(velocity/translation); for a zero translation it is NaN at rest, −infinity for a downward and +infinity for an upward velocity |
| PanelGestures.Install | Sources/PanelPresenter/Controllers/PanelPresentationController.swift:543-596 | each event reads the scroll views as they are when it arrives: the container's and the observed content view's current state replace the stored ones, and nothing else changes |
| PanelGestures.InstallLatest | Sources/PanelPresenter/Controllers/PanelPresentationController.swift:543-596 | only the latest observation of the scroll views counts |
| PanelGestures.HandlePan | Sources/PanelPresenter/Controllers/PanelPresentationController.swift:543-596 | each event first reads the scroll views' current state. Without a session only `.began` acts; a terminal event always closes the session, releasing against the current scroll state when one was open; `.changed` keeps it and drags the panel against the current scroll state; a refused `.began` changes nothing else; an accepted one opens a session on the chosen view without moving the panel |
| PanelGestures.RunConcat | Sources/PanelPresenter/Controllers/PanelPresentationController.swift:543-596 | feeding two event sequences one after the other equals feeding their concatenation |
| PanelGestures.ChangesKeepSession | Sources/PanelPresenter/Controllers/PanelPresentationController.swift:556-563 | any number of `.changed` events keeps the session and requests no dismissal |
| PanelGestures.TerminalClosesSession | Sources/PanelPresenter/Controllers/PanelPresentationController.swift:564-567 | any event sequence ending in a terminal event leaves no session open |
| PanelGestures.RefusedGestureChangesNothing | Sources/PanelPresenter/Controllers/PanelPresentationController.swift:535-537 | a whole gesture whose `.began` is refused leaves the panel exactly as it was apart from the scroll views' own scrolling, observed at the last event: no movement, no session, no dismissal, no spring-back |
| PanelGestures.NoSessionIsInert | Sources/PanelPresenter/Controllers/PanelPresentationController.swift:551-553 | without a session, events other than `.began` change nothing but the observed state of the scroll views, which is that of the last event |
| PanelGestures.GestureSessionLifecycle | Sources/PanelPresenter/Controllers/PanelPresentationController.swift:543-596 | within one gesture the session opened at `.began` stays with the same scroll view through every `.changed`; the terminal event closes it; at most one dismissal is requested |
| PanelGestures.GesturesBeginWithNoSession | Sources/PanelPresenter/Controllers/PanelPresentationController.swift:564-567 | consecutive gestures each find no session open when they begin |
| PanelGestures.ReleaseSamples | Sources/PanelPresenter/Controllers/PanelPresentationController.swift:568-584 | translation 40 with velocity 120 commits with velocity 120; with velocity −10 it springs back with initial velocity 0.25 and dismisses nothing |
| PanelAnimation.TransitionFor | Sources/PanelPresenter/Controllers/PanelAnimationController.swift:20-26 | a transition presents exactly when the destination exists and is being presented |
| PanelAnimation.TransitionDuration | Sources/PanelPresenter/Controllers/PanelAnimationController.swift:28-37 | the duration is 0.21 or 0.52; it is 0.52 exactly for a presentation with a context and without cross-fade |
| PanelAnimation.CompletesOnceLastCount | Sources/PanelPresenter/Controllers/PanelAnimationController.swift:58-122 | a step sequence whose only completion is its last step completes exactly once |
| PanelAnimation.AnimatePresentation | Sources/PanelPresenter/Controllers/PanelAnimationController.swift:58-96 | no destination view means no steps. Otherwise the transition completes once, last. Unanimated, it completes at once. A cross-fade eases opacity 0→1. A slide starts one fitted height plus the bottom safe area down and springs to rest (damping 0.86); both use the transition duration |
| PanelAnimation.DismissCurve | Sources/PanelPresenter/Controllers/PanelAnimationController.swift:105 | the curve is linear exactly above velocity 5, easing in otherwise |
| PanelAnimation.DismissDuration | Sources/PanelPresenter/Controllers/PanelAnimationController.swift:104-106 | the dismissal duration is never NaN or +infinity and never exceeds the base. A non-zero velocity gives min(base, distance/velocity), non-negative for a downward one. Velocity 0 gives the base when the distance is not negative, −infinity otherwise |
| PanelAnimation.DismissDurationSamples | Sources/PanelPresenter/Controllers/PanelAnimationController.swift:104-106 | distances 300 and 10 at velocities 1000 and 200 give 0.21, 0.21 and 0.01 |
| PanelAnimation.AnimateDismissal | Sources/PanelPresenter/Controllers/PanelAnimationController.swift:98-122 | no source view means no steps. Otherwise the transition completes once, last. Unanimated, it completes at once. Otherwise one animation fades out or slides to the view's height, over the dismissal duration with the velocity's curve |
| PanelAnimation.AnimateTransition | Sources/PanelPresenter/Controllers/PanelAnimationController.swift:39-56 | the velocity is taken from the panel controller when there is one; the transition presents or dismisses accordingly, and completes exactly once when the needed view exists, never otherwise |
| LegacyPresenter.BottomInset | Sources/PanelPresenter/PanelPresenter.swift:390-395 | the bottom inset is the 100-point bounce allowance, plus the keyboard overlap beyond the bottom safe area only when keyboard insetting is on and a keyboard is present |
| LegacyPresenter.AlignContent | Sources/PanelPresenter/PanelPresenter.swift:389-399 | only the top and bottom insets change; the top inset is non-negative, bottom-aligns shorter content exactly, and is 0 for full-height or taller content |
| LegacyPresenter.AlignContentIdempotent | Sources/PanelPresenter/PanelPresenter.swift:389-399 | aligning aligned content changes nothing |
| LegacyPresenter.FollowBounce | Sources/PanelPresenter/PanelPresenter.swift:403-412 | without a pending multiplier nothing changes. With one, the views come to rest and the multiplier is dropped once the content is at or below its top; above it, the views are the overshoot times the multiplier |
| LegacyPresenter.IndicatorInsets | Sources/PanelPresenter/PanelPresenter.swift:416-423 | the indicator's top is never above the content's top nor inside the 2-point shadow; it moves down with a top bounce and otherwise sits at the non-negative adjusted top inset plus the shadow; its bottom follows the content inset |
| PanelDismissal.DismissalContext | Sources/PanelPresenter/Controllers/PanelAnimationController.swift:46-49 | the dismissal context a committed drag leads to offers the presentation controller's recorded velocity and the panel's translation |
| PanelDismissal.CommittedDragDismisses | Sources/PanelPresenter/Controllers/PanelPresentationController.swift:568-571 | a drag released downwards past rest with velocity v dismisses over min(0.21, (height − translation)/v), never above 0.21 and negative exactly when the drag carried the panel past the view's height, with the velocity's curve, to the view's height (or transparent when cross-fading), then completes; the animator's old velocity is replaced |
| LegacyPresenter.UpdateScrollView | Sources/PanelPresenter/PanelPresenter.swift:388-432 | the content is aligned and the bounce-back tracked; the background sits one header height above the content; the shadow is shown exactly while the content is scrolled down |
| LegacyPresenter.UpdateScrollViewInsetsStable | Sources/PanelPresenter/PanelPresenter.swift:388-423 | a second update with nothing changed assigns the same insets and places the background and indicator where the first did |
| LegacyPresenter.BounceBackEndsAtTop | Sources/PanelPresenter/PanelPresenter.swift:403-408 | a pending bounce-back ends with the views at rest once the content is back at its top |
| LegacyPresenter.CustomScrollContentIsBox | Sources/PanelPresenter/PanelPresenter.swift:442-449 | with the presented controller's own scroll view, a touch is in the content exactly when it is inside the scroll view's bounds and the content box from the origin |
| LegacyPresenter.PanBelowCustomContentBegins | Sources/PanelPresenter/PanelPresenter.swift:442-449 | below the end of a custom scroll view's content, a dismissing pan begins exactly when the panel may be dismissed, whatever the scroll position |
| LegacyPresenter.TapOnCustomContentIgnored | Sources/PanelPresenter/PanelPresenter.swift:442-449 | a tap on a custom scroll view's content never begins a dismissal |
| LegacyPresenter.ShouldBegin | Sources/PanelPresenter/PanelPresenter.swift:465-492 | every call first clears the started-in-header flag. Nothing begins when dismissal is refused. A tap begins exactly outside content and header. A pan from the header always begins and sets the flag; a pan in the content begins exactly at its top; anything else begins |
| LegacyPresenter.ShouldRecognizeSimultaneously | Sources/PanelPresenter/PanelPresenter.swift:451-463 | only the scroll view's own pan recognizer runs together; it is reset (cancelling its scroll) exactly when a header drag meets scrollable content |
| LegacyPresenter.CatchBounce | Sources/PanelPresenter/PanelPresenter.swift:499-507 | a drag that catches the content bouncing below its top shifts its translation by the overshoot and halts the scroll view; otherwise the translation is the finger's |
| LegacyPresenter.Drag | Sources/PanelPresenter/PanelPresenter.swift:553-560 | the views follow the finger's downward translation, plus the top bounce when following it is allowed; bouncing is allowed exactly then |
| LegacyPresenter.Release | Sources/PanelPresenter/PanelPresenter.swift:517-552 | bouncing is re-enabled. An ended downward drag hides the indicator, adds the overshoot to the views and requests one dismissal with its velocity. Otherwise, for a displaced panel: over unscrollable content it sets the bounce-back multiplier; over scrollable content it springs the views back to rest with initial velocity −(velocity / (translation + overshoot)) and the scroll view at or below its top. A commit also halts the scroll view, so no top bounce survives |
| LegacyPresenter.ZeroLengthSpringBack | Sources/PanelPresenter/PanelPresenter.swift:518-543 | a spring-back whose translation exactly cancels the overshoot has length 0: its initial velocity is NaN at rest and an infinity against the release velocity's sign otherwise |
| LegacyPresenter.HandleDismissPan | Sources/PanelPresenter/PanelPresenter.swift:498-561 | a `.began` first catches a bounce; terminal events release, others drag; dragging never requests a dismissal; every terminal event leaves bouncing on |
| LegacyPresenter.CaughtBounceContinuesSmoothly | Sources/PanelPresenter/PanelPresenter.swift:499-507 | catching the content mid-bounce places the views exactly where the content had been pulled to |
| LegacyPresenter.DragNeverAboveBounce | Sources/PanelPresenter/PanelPresenter.swift:553-560 | while dragging, the views never rise above the scroll view's top bounce |
| LegacyPresenter.TapDismiss | Sources/PanelPresenter/PanelPresenter.swift:494-496 | a tap requests one dismissal with velocity 0 |
| LegacyTransition.Present | Sources/PanelPresenter/PanelPresenter.swift:116-122 | presenting succeeds exactly when a view controller is attached, and fails its precondition otherwise |
| LegacyTransition.LegacyDuration | Sources/PanelPresenter/PanelPresenter.swift:614-624 | the duration is 0.62 exactly when presenting and 0.32 otherwise |
| LegacyTransition.FullOffset | Sources/PanelPresenter/PanelPresenter.swift:654-656 | the travel distance is the visible height or the content plus the header, whichever is smaller, plus one more header height |
| LegacyTransition.ScaledDuration | Sources/PanelPresenter/PanelPresenter.swift:657-658 | the scaled duration is never NaN or below 0.15: it is max(0.15, base · offset/height · 0.75) for a non-zero container height, +infinity for a zero height with positive offset, and 0.15 for zero offset |
| LegacyTransition.TapDismissalUsesScaledDuration | Sources/PanelPresenter/PanelPresenter.swift:682-684 | with velocity 0 and the views not past the hidden offset, the dismissal takes the scaled duration |
| LegacyTransition.FlickShortensDismissal | Sources/PanelPresenter/PanelPresenter.swift:683-684 | a downward flick gives a finite duration, min(scaled, distance/velocity), never longer than the scaled duration; it is non-negative with the views not past the hidden offset and negative once a drag has carried them past it |
| LegacyTransition.AnimateLegacyTransition | Sources/PanelPresenter/PanelPresenter.swift:626-696 | the transition completes exactly once, last. Presenting starts clear and a full offset down, fades in over 35% of 0.62 and springs to rest (damping 0.78). Dismissing fades out and slides to the full offset over the dismissal duration with the velocity's curve |
| LegacyTransition.DragDismissalCurve | Sources/PanelPresenter/PanelPresenter.swift:529-533 | a committed drag's dismissal slides out linearly for a velocity above 5, easing in otherwise |
| LegacyTransition.TapDismissalEasesIn | Sources/PanelPresenter/PanelPresenter.swift:494-496 | a tap on the background dismisses a resting panel over the scaled duration, easing in |

## Left out

- View hierarchy and Auto Layout: constraint construction, corner masking, styling (`dimOpacity`, `cornerRadius`, colours) and the legacy `setupViews`, `setupViewConstraints` and `updatePanelHeight`. None of it decides behaviour the model states.
- The animations themselves: only their start and end values, duration, curve, damping and completion are modelled, not intermediate frames. `animateChanges` is one such animation, with no decision of its own.
- Key-value observation and notification plumbing: the scroll-view observers, the keyboard notification and its frame conversion. The keyboard overlap is an input.
- `CFRunLoopPerformBlock`: the deferred halt of a released scroll view is applied immediately.
- `shouldCrossfade`, `UIScreen.main.scale` and the `PanelPresentable` properties are inputs, read from platform state the model does not have.
- `PanelScrollView.touchesShouldCancel` and the sample app: outside the presentation engine.
- Floating-point rounding and the sign of zero. Every zero is +0.0, so a non-zero value divided by zero gives the infinity of the numerator's sign.
- The legacy private `PanelPresentationController`: its only job is to keep the presenter alive.
- Scroll views: `frame.height` is taken to be `bounds.height`, since the scroll views carry no transform of their own.
- PanelAnimation.DismissDuration: `min(duration, offset / velocity)` is modelled for every velocity, although the controller only ever stores its initial 0 or the positive velocity of a committed drag (PanelPresentationController.swift:569-570). Velocity 0 gives the base duration when the distance is not negative and −infinity when it is. How UIKit animates a −infinity duration is not modelled.
- LegacyTransition.AnimateLegacyTransition: the legacy animator passes the animation's `finished` flag to `completeTransition`, but the model takes every animation as running to its end. The tint-adjustment-mode bookkeeping is also left out.
- LegacyPresenter.UpdateScrollView: the 0.15-second fade of the header shadow is represented by its target opacity only.

## Findings

| source | as written | input that shows it | evidently intended | confidence | as-written member | corrected member |
|---|---|---|---|---|---|---|
| Sources/PanelPresenter/Controllers/PanelPresentationController.swift:31-35 | after set-up, changing `headerHeight` sets the presented controller's extra top safe-area inset to the new height even while the header is hidden | a loaded panel with `showsHeader == false`, then `headerHeight = 60`: the content gets a 60-point top inset for a header that is not shown | the inset follows the height only while the header is shown, as `updateHeaderViewVisibility` does | medium, not executed | PanelLayout.SetHeaderHeight, PanelLayout.SetHeaderHeightBreaksHiddenHeader | PanelLayout.SetHeaderHeightCorrected |
