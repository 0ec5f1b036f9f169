/**
  Layout arithmetic of `PanelPresentationController`: the insets it gives the
  container scroll view, the scroll-indicator insets that follow a top
  bounce, the header background fade, the top inset of the container, the
  keyboard's bottom inset, and the once-only view set-up with the option
  setters that depend on it.
 */
module PanelLayout {
  import opened Wrappers
  import opened Geometry
  import opened ScrollGeometry

  /** The controller's public options that take part in layout. */
  datatype Config = Config(
    showsHeader: bool,
    headerHeight: real,
    fadeInHeaderBackgroundWhileScrolling: bool,
    topInset: real,
    extendsToFullHeight: bool)

  /** The options' initial values. */
  const DefaultConfig: Config := Config(false, 50.0, true, 10.0, false)

  // ---------------------------------------------------------------------------
  // Container scroll view
  // ---------------------------------------------------------------------------

  /**
    Content inset of the container scroll view: only a top inset, sized so
    that content shorter than the frame sits at the bottom of it.
   */
  function ContainerContentInset(frameHeight: real, contentHeight: real): (r: Insets)
    ensures r.top >= 0.0 && r.left == 0.0 && r.bottom == 0.0 && r.right == 0.0
    ensures r.top + contentHeight >= frameHeight
    ensures contentHeight <= frameHeight ==> r.top + contentHeight == frameHeight
    ensures contentHeight >= frameHeight ==> r.top == 0.0
  {
    Insets(Max(0.0, frameHeight - contentHeight), 0.0, 0.0, 0.0)
  }

  /** A scroll view together with whether a property of it was reassigned. */
  datatype InsetUpdate = InsetUpdate(view: ScrollView, reassigned: bool)

  /**
    Applies the container's content inset, reassigning it only when it
    differs from the current one.
   */
  function ApplyContainerInset(s: ScrollView): (r: InsetUpdate)
    ensures r.view.contentInset == ContainerContentInset(s.bounds.height, s.contentSize.height)
    ensures r.reassigned <==> s.contentInset != ContainerContentInset(s.bounds.height, s.contentSize.height)
    ensures r.view == s.(contentInset := r.view.contentInset)
  {
    var inset := ContainerContentInset(s.bounds.height, s.contentSize.height);
    if s.contentInset != inset then InsetUpdate(s.(contentInset := inset), true)
    else InsetUpdate(s, false)
  }

  /** A second update with nothing changed in between reassigns nothing and yields the same view. */
  lemma ApplyContainerInsetIdempotent(s: ScrollView)
    ensures !ApplyContainerInset(ApplyContainerInset(s).view).reassigned
    ensures ApplyContainerInset(ApplyContainerInset(s).view).view == ApplyContainerInset(s).view
  {
  }

  /**
    With no inset adjustment (the container uses `.never`), content no taller
    than the frame fills exactly the space below the inset, so it never counts
    as exceeding the bounds.
   */
  lemma ShortContentDoesNotScroll(s: ScrollView, precision: real)
    requires s.adjustment == ZeroInsets
    requires 0.0 <= s.contentSize.height <= s.bounds.height
    requires precision > 0.0
    ensures VisibleHeight(ApplyContainerInset(s).view) == s.contentSize.height
    ensures !ContentExceedsBounds(ApplyContainerInset(s).view, precision)
  {
  }

  /** Base of the vertical indicator's top inset: the header's height when shown, else 8. */
  function IndicatorBase(showsHeader: bool, headerHeight: real): real {
    if showsHeader then headerHeight else 8.0
  }

  /**
    Top inset of the container's vertical scroll indicator: the base plus
    how far the content is pulled down past its top, so the indicator
    travels with the bounce.
   */
  function IndicatorTopInset(showsHeader: bool, headerHeight: real, relativeY: real): (r: real)
    ensures r >= IndicatorBase(showsHeader, headerHeight)
    ensures relativeY >= 0.0 ==> r == IndicatorBase(showsHeader, headerHeight)
    ensures relativeY < 0.0 ==> r == IndicatorBase(showsHeader, headerHeight) - relativeY
  {
    IndicatorBase(showsHeader, headerHeight) + Max(0.0, -relativeY)
  }

  /**
    Vertical offset the header fade reads: the presented content's own scroll
    view's relative offset when it supplies one, else the container's raw
    content offset.
   */
  function HeaderFadeOffset(contentScroll: Option<ScrollView>, container: ScrollView): (r: real)
    ensures contentScroll.Some? ==> r == contentScroll.value.offset.y + contentScroll.value.AdjustedInset().top
    ensures contentScroll.None? ==> r == container.offset.y
  {
    match contentScroll
    case Some(s) => RelativeOffset(s).y
    case None => container.offset.y
  }

  /**
    Opacity of the header background: fully opaque when fading is off,
    otherwise ramping from 0 at offset 0 to 1 at offset 20.
   */
  function HeaderBackgroundAlpha(fade: bool, offsetY: real): (r: real)
    ensures 0.0 <= r <= 1.0
    ensures !fade ==> r == 1.0
    ensures fade && offsetY <= 0.0 ==> r == 0.0
    ensures fade && offsetY >= 20.0 ==> r == 1.0
    ensures fade && 0.0 <= offsetY <= 20.0 ==> r * 20.0 == offsetY
  {
    if !fade then 1.0 else Max(0.0, Min(1.0, offsetY / 20.0))
  }

  /** Scrolling further down never makes the header background more transparent. */
  lemma HeaderBackgroundAlphaMonotone(fade: bool, y1: real, y2: real)
    requires y1 <= y2
    ensures HeaderBackgroundAlpha(fade, y1) <= HeaderBackgroundAlpha(fade, y2)
  {
  }

  /** The fade's sample values: offsets 0, 10 and 25 give opacities 0, 0.5 and 1. */
  lemma HeaderBackgroundAlphaSamples()
    ensures HeaderBackgroundAlpha(true, 0.0) == 0.0
    ensures HeaderBackgroundAlpha(true, 10.0) == 0.5
    ensures HeaderBackgroundAlpha(true, 25.0) == 1.0
  {
  }

  /** Everything one container scroll-view update decides. */
  datatype ContainerUpdate = ContainerUpdate(
    view: ScrollView,
    insetReassigned: bool,
    panOnScrollView: bool,
    indicatorTop: real,
    headerAlpha: real)

  /**
    `containerScrollViewDidUpdate`: re-insets the container so short content
    is bottom-aligned, hands the scroll view's pan recognizer to the scroll
    view itself only when its content can scroll (else to the panel
    container), lets the indicator follow a top bounce and refreshes the
    header fade.
   */
  function ContainerScrollViewDidUpdate(s: ScrollView, cfg: Config, contentScroll: Option<ScrollView>,
                                        precision: real): (r: ContainerUpdate)
    ensures r.view == s.(contentInset := ContainerContentInset(s.bounds.height, s.contentSize.height))
    ensures r.insetReassigned <==> s.contentInset != r.view.contentInset
    ensures r.panOnScrollView <==> ContentExceedsBounds(r.view, precision)
    ensures r.indicatorTop >= IndicatorBase(cfg.showsHeader, cfg.headerHeight)
    ensures RelativeOffset(r.view).y >= 0.0 <==> r.indicatorTop == IndicatorBase(cfg.showsHeader, cfg.headerHeight)
    ensures r.indicatorTop == IndicatorTopInset(cfg.showsHeader, cfg.headerHeight, RelativeOffset(r.view).y)
    ensures r.headerAlpha == HeaderBackgroundAlpha(cfg.fadeInHeaderBackgroundWhileScrolling, HeaderFadeOffset(contentScroll, r.view))
    ensures 0.0 <= r.headerAlpha <= 1.0
  {
    var applied := ApplyContainerInset(s);
    var view := applied.view;
    ContainerUpdate(
      view,
      applied.reassigned,
      ContentExceedsBounds(view, precision),
      IndicatorTopInset(cfg.showsHeader, cfg.headerHeight, RelativeOffset(view).y),
      HeaderBackgroundAlpha(cfg.fadeInHeaderBackgroundWhileScrolling, HeaderFadeOffset(contentScroll, view)))
  }

  /** Everything one content scroll-view update decides. */
  datatype ContentUpdate = ContentUpdate(
    scrollEnabled: bool,
    containerAlwaysBounces: bool,
    heightConstant: real,
    bounceTranslation: real,
    indicatorTop: real,
    headerAlpha: real)

  /**
    `contentScrollViewDidUpdate`: exactly one of the content scroll view and
    the container scrolls; the content's height constraint tracks its
    content height; the background and header move down with a top bounce,
    and the indicator's top inset is 8 plus that same bounce.
   */
  function ContentScrollViewDidUpdate(content: ScrollView, container: ScrollView, cfg: Config,
                                      contentScroll: Option<ScrollView>, precision: real): (r: ContentUpdate)
    ensures r.scrollEnabled <==> ContentExceedsBounds(content, precision)
    ensures r.containerAlwaysBounces <==> !r.scrollEnabled
    ensures r.heightConstant == content.contentSize.height
    ensures r.bounceTranslation >= 0.0
    ensures r.bounceTranslation == 0.0 <==> RelativeOffset(content).y >= 0.0
    ensures r.bounceTranslation > 0.0 ==> r.bounceTranslation == -RelativeOffset(content).y
    ensures r.indicatorTop == 8.0 + r.bounceTranslation
    ensures r.headerAlpha == HeaderBackgroundAlpha(cfg.fadeInHeaderBackgroundWhileScrolling, HeaderFadeOffset(contentScroll, container))
    ensures contentScroll == Some(content) ==>
              r.headerAlpha == HeaderBackgroundAlpha(cfg.fadeInHeaderBackgroundWhileScrolling, RelativeOffset(content).y)
    ensures 0.0 <= r.headerAlpha <= 1.0
  {
    var exceeds := ContentExceedsBounds(content, precision);
    var overshoot := Max(0.0, -RelativeOffset(content).y);
    ContentUpdate(
      exceeds,
      !exceeds,
      content.contentSize.height,
      overshoot,
      8.0 + overshoot,
      HeaderBackgroundAlpha(cfg.fadeInHeaderBackgroundWhileScrolling, HeaderFadeOffset(contentScroll, container)))
  }

  // ---------------------------------------------------------------------------
  // Keyboard and top inset
  // ---------------------------------------------------------------------------

  /**
    Bottom safe-area inset given to the presented controller for the
    keyboard. `overlap` is the height of the keyboard frame's intersection
    with the container's safe-area bounds, absent when there is no keyboard
    frame or no container view.
   */
  function KeyboardBottomInset(overlap: Option<real>): (r: real)
    ensures r >= 0.0
    ensures r > 0.0 <==> overlap.Some? && overlap.value > 0.0
    ensures r > 0.0 ==> r == 8.0 + overlap.value && r > 8.0
  {
    match overlap
    case Some(h) => if h > 0.0 then 8.0 + h else 0.0
    case None => 0.0
  }

  /** A real-valued property after an update, with whether it was reassigned. */
  datatype RealUpdate = RealUpdate(value: real, reassigned: bool)

  /** `updateKeyboardBottomInsetIfNeeded`: reassigns the bottom inset only when it changes. */
  function UpdateKeyboardBottomInset(current: real, overlap: Option<real>): (r: RealUpdate)
    ensures r.value == KeyboardBottomInset(overlap)
    ensures r.reassigned <==> current != KeyboardBottomInset(overlap)
  {
    var inset := KeyboardBottomInset(overlap);
    if current != inset then RealUpdate(inset, true) else RealUpdate(current, false)
  }

  /** Running the keyboard update twice reassigns nothing the second time. */
  lemma UpdateKeyboardBottomInsetIdempotent(current: real, overlap: Option<real>)
    ensures !UpdateKeyboardBottomInset(UpdateKeyboardBottomInset(current, overlap).value, overlap).reassigned
  {
  }

  /**
    `updateTopInsetIfNeeded`: the container's top constraint, when it exists,
    becomes 0 for a full-height panel and the configured top inset otherwise;
    a missing constraint stays missing.
   */
  function UpdateTopInset(constraint: Option<real>, cfg: Config): (r: Option<real>)
    ensures r.Some? <==> constraint.Some?
    ensures r.Some? && cfg.extendsToFullHeight ==> r.value == 0.0
    ensures r.Some? && !cfg.extendsToFullHeight ==> r.value == cfg.topInset
  {
    var inset := if cfg.extendsToFullHeight then 0.0 else cfg.topInset;
    match constraint
    case None => None
    case Some(c) => if c != inset then Some(inset) else constraint
  }

  // ---------------------------------------------------------------------------
  // View set-up and option setters
  // ---------------------------------------------------------------------------

  /**
    The view state the once-only set-up and the option setters manage:
    whether the views are built, whether a container view and a presented
    view exist, the header's opacity, the presented controller's extra top
    safe-area inset, and the container's top constraint (absent before
    set-up).
   */
  datatype Views = Views(
    loaded: bool,
    hasContainerView: bool,
    hasPresentedView: bool,
    config: Config,
    headerAlpha: real,
    safeAreaTop: real,
    topConstraint: Option<real>)

  /** The header is visible with the header's height as extra safe area, or hidden with none. */
  predicate HeaderConsistent(v: Views) {
    v.loaded ==>
      (v.config.showsHeader ==> v.headerAlpha == 1.0 && v.safeAreaTop == v.config.headerHeight) &&
      (!v.config.showsHeader ==> v.headerAlpha == 0.0 && v.safeAreaTop == 0.0)
  }

  /** `updateHeaderViewVisibility`. */
  function ApplyHeaderVisibility(v: Views): (r: Views)
    ensures r.loaded == v.loaded && r.config == v.config && r.topConstraint == v.topConstraint
    ensures r.loaded ==> HeaderConsistent(r)
  {
    if v.config.showsHeader then v.(headerAlpha := 1.0, safeAreaTop := v.config.headerHeight)
    else v.(headerAlpha := 0.0, safeAreaTop := 0.0)
  }

  /**
    `setUpViews`: builds the view stack only once, and only when a container
    view and a presented view exist; the top constraint starts at the
    configured top inset and the header visibility is applied.
   */
  function SetUpViews(v: Views): (r: Views)
    ensures v.loaded ==> r == v
    ensures r.loaded <==> v.loaded || (v.hasContainerView && v.hasPresentedView)
    ensures !r.loaded ==> r == v
    ensures !v.loaded && r.loaded ==> r.topConstraint == Some(v.config.topInset) && HeaderConsistent(r)
    ensures r.config == v.config
  {
    if v.loaded || !v.hasContainerView || !v.hasPresentedView then v
    else ApplyHeaderVisibility(v.(loaded := true, topConstraint := Some(v.config.topInset)))
  }

  /** Setting the views up a second time changes nothing. */
  lemma SetUpViewsIdempotent(v: Views)
    ensures SetUpViews(SetUpViews(v)) == SetUpViews(v)
  {
  }

  /** `showsHeader`'s setter: the visibility is re-applied only when loaded and the value changed. */
  function SetShowsHeader(v: Views, shows: bool): (r: Views)
    ensures r.config == v.config.(showsHeader := shows)
    ensures !v.loaded || shows == v.config.showsHeader ==> r == v.(config := r.config)
    ensures v.loaded && shows != v.config.showsHeader ==> HeaderConsistent(r)
    ensures HeaderConsistent(v) ==> HeaderConsistent(r)
  {
    var w := v.(config := v.config.(showsHeader := shows));
    if !v.loaded || shows == v.config.showsHeader then w else ApplyHeaderVisibility(w)
  }

  /**
    `headerHeight`'s setter as written: once loaded, the extra top safe-area
    inset becomes the new height whether or not the header is shown.
   */
  function SetHeaderHeight(v: Views, height: real): (r: Views)
    ensures r.config == v.config.(headerHeight := height)
    ensures r.loaded ==> r.safeAreaTop == height
    ensures !r.loaded ==> r == v.(config := r.config)
  {
    var w := v.(config := v.config.(headerHeight := height));
    if !v.loaded then w else w.(safeAreaTop := height)
  }

  /**
    With the header hidden, changing its height after set-up leaves a top
    safe-area inset for a header that is not there.
   */
  lemma SetHeaderHeightBreaksHiddenHeader()
    ensures var v := Views(true, true, true, DefaultConfig, 0.0, 0.0, Some(10.0));
            HeaderConsistent(v) && !HeaderConsistent(SetHeaderHeight(v, 60.0))
  {
  }

  /**
    Toggling `showsHeader` off and on again re-applies the visibility and so
    repairs the stray inset the as-written height setter leaves behind.
   */
  lemma ToggleHeaderRepairs(v: Views, height: real)
    requires v.loaded && !v.config.showsHeader
    ensures var w := SetShowsHeader(SetShowsHeader(SetHeaderHeight(v, height), true), false);
            HeaderConsistent(w) && w.safeAreaTop == 0.0
  {
  }

  /**
    `headerHeight`'s setter as evidently intended: the extra top safe-area
    inset follows the new height only while the header is shown.
   */
  function SetHeaderHeightCorrected(v: Views, height: real): (r: Views)
    ensures r.config == v.config.(headerHeight := height)
    ensures HeaderConsistent(v) ==> HeaderConsistent(r)
    ensures r.loaded && r.config.showsHeader ==> r.safeAreaTop == height
  {
    var w := v.(config := v.config.(headerHeight := height));
    if !v.loaded then w else ApplyHeaderVisibility(w)
  }

  /** `topInset`'s setter: once loaded, the top constraint is brought up to date. */
  function SetTopInset(v: Views, inset: real): (r: Views)
    ensures r.config == v.config.(topInset := inset)
    ensures !v.loaded ==> r.topConstraint == v.topConstraint
    ensures v.loaded ==> r.topConstraint == UpdateTopInset(v.topConstraint, r.config)
    ensures HeaderConsistent(v) ==> HeaderConsistent(r)
  {
    var w := v.(config := v.config.(topInset := inset));
    if !v.loaded then w else w.(topConstraint := UpdateTopInset(w.topConstraint, w.config))
  }

  /** `extendsToFullHeight`'s setter: once loaded, the top constraint is brought up to date. */
  function SetExtendsToFullHeight(v: Views, fullHeight: bool): (r: Views)
    ensures r.config == v.config.(extendsToFullHeight := fullHeight)
    ensures !v.loaded ==> r.topConstraint == v.topConstraint
    ensures v.loaded ==> r.topConstraint == UpdateTopInset(v.topConstraint, r.config)
    ensures v.loaded && v.topConstraint.Some? && fullHeight ==> r.topConstraint == Some(0.0)
    ensures v.loaded && v.topConstraint.Some? && !fullHeight ==> r.topConstraint == Some(v.config.topInset)
    ensures HeaderConsistent(v) ==> HeaderConsistent(r)
  {
    var w := v.(config := v.config.(extendsToFullHeight := fullHeight));
    if !v.loaded then w else w.(topConstraint := UpdateTopInset(w.topConstraint, w.config))
  }
}
