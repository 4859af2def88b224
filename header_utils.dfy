/** The collapsing large-title header: indexing a header, the style writes, the
    scroll-driven title scale and border alpha, and the intersection-driven switch
    between the main header and the collapsing (scroll) header. */
module HeaderUtils {
  import opened Dom

  /** The transition a write attaches when it is animated. */
  const TRANSITION := "all 0.2s ease-in-out"

  /** The `transition` style a write leaves behind. */
  function TransitionFor(transition: bool): string
  {
    if transition then TRANSITION else ""
  }

  // ---------------------------------------------------------------------------
  // The header index
  // ---------------------------------------------------------------------------

  /** One toolbar of a header with the elements the logic writes to. */
  datatype ToolbarEntry = ToolbarEntry(
    el: ToolbarEl,
    ionTitleEl: Option<TitleEl>,
    innerTitleEl: Option<TitleInnerEl>,
    ionButtonsEl: seq<ButtonsEl>)

  datatype HeaderIndex = HeaderIndex(el: HeaderEl, toolbars: seq<ToolbarEntry>)

  /** `e` is the entry the index holds for toolbar `t`: its first title, that title's
      inner node when there is a title, and all of its button groups. */
  predicate Describes(e: ToolbarEntry, t: ToolbarEl)
  {
    && e.el == t
    && (e.ionTitleEl.None? <==> t.ionTitles == [])
    && (e.ionTitleEl.Some? ==> e.ionTitleEl.value == t.ionTitles[0])
    && (e.ionTitleEl.None? ==> e.innerTitleEl.None?)
    && (e.ionTitleEl.Some? ==>
          && (e.innerTitleEl.None? <==> e.ionTitleEl.value.toolbarTitles == [])
          && (e.innerTitleEl.Some? ==> e.innerTitleEl.value == e.ionTitleEl.value.toolbarTitles[0]))
    && e.ionButtonsEl == t.ionButtons
  }

  function IndexToolbar(toolbar: ToolbarEl): ToolbarEntry
  {
    var ionTitleEl := First(toolbar.ionTitles);
    ToolbarEntry(
      toolbar,
      ionTitleEl,
      if ionTitleEl.Some? then First(ionTitleEl.value.toolbarTitles) else None,
      toolbar.ionButtons)
  }

  /** Nothing for an absent header; otherwise one entry per toolbar, in document order. */
  function CreateHeaderIndex(headerEl: Option<HeaderEl>): (r: Option<HeaderIndex>)
    ensures r.None? <==> headerEl.None?
    ensures r.Some? ==> r.value.el == headerEl.value
    ensures r.Some? ==> |r.value.toolbars| == |headerEl.value.ionToolbars|
    ensures r.Some? ==> forall i :: 0 <= i < |r.value.toolbars| ==>
              Describes(r.value.toolbars[i], headerEl.value.ionToolbars[i])
  {
    match headerEl
    case None => None
    case Some(h) =>
      Some(HeaderIndex(h, seq(|h.ionToolbars|, i requires 0 <= i < |h.ionToolbars| => IndexToolbar(h.ionToolbars[i]))))
  }

  /** Every `ion-title` of the header renders its `.toolbar-title` node. */
  predicate TitlesRendered(h: HeaderEl)
  {
    forall t, title :: t in h.ionToolbars && title in t.ionTitles ==> title.toolbarTitles != []
  }

  /** When every title renders its inner node, an entry lacks the inner node exactly
      when it lacks a title. */
  lemma InnerTitleAbsentIffNoTitle(h: HeaderEl, i: nat)
    requires TitlesRendered(h)
    requires i < |h.ionToolbars|
    ensures CreateHeaderIndex(Some(h)).Some?
    ensures CreateHeaderIndex(Some(h)).value.toolbars[i].innerTitleEl.None? <==> h.ionToolbars[i].ionTitles == []
  {
  }

  // ---------------------------------------------------------------------------
  // Scroll arithmetic
  // ---------------------------------------------------------------------------

  /** `value` pulled into `[min, max]`; note that `max` comes before `min`. */
  function ClampValue(value: real, max: real, min: real): (r: real)
    ensures min <= max ==> min <= r <= max
    ensures min <= value <= max ==> r == value
    ensures value > max ==> r == max
    ensures value < min && min <= max ==> r == min
  {
    if value > max then max
    else if value < min then min
    else value
  }

  /** Clamping never reverses the order of two values. */
  lemma ClampMonotone(x: real, y: real, max: real, min: real)
    requires min <= max
    requires x <= y
    ensures ClampValue(x, max, min) <= ClampValue(y, max, min)
  {
  }

  /** The scale of the large titles at scroll offset `scrollTop`. */
  function ScrollScale(scrollTop: real): (scale: real)
    ensures 1.0 <= scale <= 1.1
  {
    ClampValue(1.0 + (-scrollTop / 500.0), 1.1, 1.0)
  }

  /** At or below the resting position the titles keep their natural size. */
  lemma ScrollScaleRests(scrollTop: real)
    requires scrollTop >= 0.0
    ensures ScrollScale(scrollTop) == 1.0
  {
  }

  /** Pulled down by 50 pixels or more, the titles reach their largest scale. */
  lemma ScrollScaleFullPull(scrollTop: real)
    requires scrollTop <= -50.0
    ensures ScrollScale(scrollTop) == 1.1
  {
  }

  /** Scrolling further never enlarges the titles. */
  lemma ScrollScaleMonotone(a: real, b: real)
    requires a <= b
    ensures ScrollScale(b) <= ScrollScale(a)
  {
  }

  const MAX_BORDER_ALPHA: real := 0.2

  /** The alpha of the last main toolbar's border at scroll offset `scrollTop`.
      The source divides by the toolbar height without a guard. */
  function BorderAlpha(scrollTop: real, remainingHeight: real, clientHeight: nat): (alpha: real)
    requires clientHeight > 0
    ensures 0.0 <= alpha <= MAX_BORDER_ALPHA
  {
    ClampValue((scrollTop - remainingHeight) / (clientHeight as real), 1.0, 0.0) * MAX_BORDER_ALPHA
  }

  /** No border before the content has scrolled past `remainingHeight`. */
  lemma BorderAlphaNone(scrollTop: real, remainingHeight: real, clientHeight: nat)
    requires clientHeight > 0
    requires scrollTop <= remainingHeight
    ensures BorderAlpha(scrollTop, remainingHeight, clientHeight) == 0.0
  {
  }

  /** The full border once one more toolbar height has scrolled by. */
  lemma BorderAlphaFull(scrollTop: real, remainingHeight: real, clientHeight: nat)
    requires clientHeight > 0
    requires scrollTop >= remainingHeight + clientHeight as real
    ensures BorderAlpha(scrollTop, remainingHeight, clientHeight) == MAX_BORDER_ALPHA
  {
  }

  /** The border only grows as the content scrolls further. */
  lemma BorderAlphaMonotone(a: real, b: real, remainingHeight: real, clientHeight: nat)
    requires clientHeight > 0
    requires a <= b
    ensures BorderAlpha(a, remainingHeight, clientHeight) <= BorderAlpha(b, remainingHeight, clientHeight)
  {
  }

  // ---------------------------------------------------------------------------
  // Style writes
  // ---------------------------------------------------------------------------

  function BorderFrame(toolbar: Option<ToolbarEntry>): set<object>
  {
    if toolbar.Some? then {toolbar.value.el} else {}
  }

  /** Sets the border alpha of `toolbar`; an absent toolbar is left alone. */
  method SetToolbarBorderColor(toolbar: Option<ToolbarEntry>, alpha: real)
    modifies BorderFrame(toolbar)
    ensures toolbar.Some? ==> toolbar.value.el.borderAlpha == alpha
  {
    if toolbar.None? {
      return;
    }
    toolbar.value.el.borderAlpha := alpha;
  }

  /** `setElOpacity` on an `ion-title`. */
  method SetTitleOpacity(el: TitleEl, opacity: real, transition: bool)
    modifies el
    ensures el.opacity == opacity && el.transition == TransitionFor(transition)
  {
    el.transition := TransitionFor(transition);
    el.opacity := opacity;
  }

  /** `setElOpacity` on an `ion-buttons`. */
  method SetButtonsOpacity(el: ButtonsEl, opacity: real, transition: bool)
    modifies el
    ensures el.opacity == opacity && el.transition == TransitionFor(transition)
  {
    el.transition := TransitionFor(transition);
    el.opacity := opacity;
  }

  /** The opacity style of an element together with its transition. */
  datatype Fade = Fade(opacity: real, transition: string)

  /** What the logic sees of one `ion-buttons`. */
  datatype ButtonsFace = ButtonsFace(collapse: bool, fade: Fade)

  ghost function ButtonsFaces(buttons: seq<ButtonsEl>): (faces: seq<ButtonsFace>)
    reads buttons
  {
    seq(|buttons|, i requires 0 <= i < |buttons| reads buttons =>
      ButtonsFace(buttons[i].collapse, Fade(buttons[i].opacity, buttons[i].transition)))
  }

  /** One button group after the write: a collapsible group takes the new style. */
  function SetIfCollapsible(face: ButtonsFace, opacity: real, transition: bool): ButtonsFace
  {
    if face.collapse then ButtonsFace(true, Fade(opacity, TransitionFor(transition))) else face
  }

  /** The button groups, in order, after every collapsible one is set to `opacity`. */
  function SetCollapsible(faces: seq<ButtonsFace>, opacity: real, transition: bool): (r: seq<ButtonsFace>)
    ensures |r| == |faces|
  {
    if faces == [] then []
    else [SetIfCollapsible(faces[0], opacity, transition)] + SetCollapsible(faces[1..], opacity, transition)
  }

  /** Group `k` is written exactly when it is collapsible; the others keep their style. */
  lemma {:induction false} SetCollapsibleAt(faces: seq<ButtonsFace>, opacity: real, transition: bool, k: nat)
    requires k < |faces|
    ensures SetCollapsible(faces, opacity, transition)[k].collapse == faces[k].collapse
    ensures faces[k].collapse ==>
              SetCollapsible(faces, opacity, transition)[k].fade == Fade(opacity, TransitionFor(transition))
    ensures !faces[k].collapse ==> SetCollapsible(faces, opacity, transition)[k] == faces[k]
  {
    if k > 0 {
      SetCollapsibleAt(faces[1..], opacity, transition, k - 1);
    }
  }

  /** Every collapsible group shows the new style, and every group keeps its kind and,
      when it is not collapsible, its style. */
  lemma SetCollapsibleShows(faces: seq<ButtonsFace>, opacity: real, transition: bool)
    ensures var r := SetCollapsible(faces, opacity, transition);
      && (forall i :: 0 <= i < |r| && r[i].collapse ==> r[i].fade == Fade(opacity, TransitionFor(transition)))
      && (forall i :: 0 <= i < |faces| ==>
            faces[i].collapse == r[i].collapse && (!faces[i].collapse ==> faces[i] == r[i]))
  {
    forall k | 0 <= k < |faces| {
      SetCollapsibleAt(faces, opacity, transition, k);
    }
  }

  /** Only the last of two writes to the collapsible groups is visible: in particular
      showing after hiding shows, and writing twice is writing once. */
  lemma {:induction false} SetCollapsibleLastWins(faces: seq<ButtonsFace>, o1: real, t1: bool, o2: real, t2: bool)
    ensures SetCollapsible(SetCollapsible(faces, o1, t1), o2, t2) == SetCollapsible(faces, o2, t2)
  {
    if faces != [] {
      SetCollapsibleLastWins(faces[1..], o1, t1, o2, t2);
      var once := SetCollapsible(faces, o1, t1);
      assert once[1..] == SetCollapsible(faces[1..], o1, t1);
    }
  }

  /** Sets every collapsible group of `buttons` to `opacity`; the others are untouched.
      Shared by `hideCollapsableButtons` and `showCollapsableButtons`. */
  method SetCollapsibleButtonsOpacity(buttons: seq<ButtonsEl>, opacity: real, transition: bool)
    modifies buttons
    ensures ButtonsFaces(buttons) == SetCollapsible(old(ButtonsFaces(buttons)), opacity, transition)
  {
    for i := 0 to |buttons|
      invariant forall b :: b in buttons && b.collapse && b in buttons[..i] ==>
                  b.opacity == opacity && b.transition == TransitionFor(transition)
      invariant forall b :: b in buttons && !(b.collapse && b in buttons[..i]) ==>
                  b.opacity == old(b.opacity) && b.transition == old(b.transition)
    {
      var button := buttons[i];
      if button.collapse {
        SetButtonsOpacity(button, opacity, transition);
      }
    }
    assert buttons[..|buttons|] == buttons;
    forall k | 0 <= k < |buttons|
      ensures ButtonsFaces(buttons)[k] == SetCollapsible(old(ButtonsFaces(buttons)), opacity, transition)[k]
    {
      assert buttons[k] in buttons;
      SetCollapsibleAt(old(ButtonsFaces(buttons)), opacity, transition, k);
    }
  }

  method HideCollapsableButtons(buttons: seq<ButtonsEl>, transition: bool)
    modifies buttons
    ensures ButtonsFaces(buttons) == SetCollapsible(old(ButtonsFaces(buttons)), 0.0, transition)
  {
    SetCollapsibleButtonsOpacity(buttons, 0.0, transition);
  }

  method ShowCollapsableButtons(buttons: seq<ButtonsEl>, transition: bool)
    modifies buttons
    ensures ButtonsFaces(buttons) == SetCollapsible(old(ButtonsFaces(buttons)), 1.0, transition)
  {
    SetCollapsibleButtonsOpacity(buttons, 1.0, transition);
  }

  /** The toolbars whose title `scaleLargeTitles` scales: a large title with its inner node. */
  predicate Scalable(e: ToolbarEntry)
  {
    e.ionTitleEl.Some? && e.ionTitleEl.value.size == Large && e.innerTitleEl.Some?
  }

  function ScalableInners(toolbars: seq<ToolbarEntry>): set<TitleInnerEl>
  {
    set e | e in toolbars && Scalable(e) :: e.innerTitleEl.value
  }

  /** The inner title node `d` shows scale `scale`, anchored at its left centre. */
  ghost predicate Scaled(d: TitleInnerEl, scale: real, transition: bool)
    reads d
  {
    d.transformOrigin == "left center" && d.scale == scale && d.transition == TransitionFor(transition)
  }

  /** Scales the inner title of every scalable toolbar; nothing else is written. */
  method ScaleLargeTitles(toolbars: seq<ToolbarEntry>, scale: real, transition: bool)
    modifies ScalableInners(toolbars)
    ensures forall e :: e in toolbars && Scalable(e) ==> Scaled(e.innerTitleEl.value, scale, transition)
  {
    for i := 0 to |toolbars|
      invariant forall e :: e in toolbars[..i] && Scalable(e) ==> Scaled(e.innerTitleEl.value, scale, transition)
    {
      var toolbar := toolbars[i];
      var ionTitle := toolbar.ionTitleEl;
      if ionTitle.None? || ionTitle.value.size != Large {
        continue;
      }
      var titleDiv := toolbar.innerTitleEl;
      if titleDiv.None? {
        continue;
      }
      assert titleDiv.value in ScalableInners(toolbars);
      titleDiv.value.transformOrigin := "left center";
      titleDiv.value.transition := TransitionFor(transition);
      titleDiv.value.scale := scale;
    }
    assert toolbars[..|toolbars|] == toolbars;
  }

  // ---------------------------------------------------------------------------
  // Scroll handling
  // ---------------------------------------------------------------------------

  function LastToolbar(index: HeaderIndex): Option<ToolbarEntry>
  {
    if index.toolbars == [] then None else Some(index.toolbars[|index.toolbars| - 1])
  }

  /** Reads the scroll offset, then scales the scroll header's large titles and sets the
      main header's bottom border. */
  method HandleContentScroll(scrollTop: real, mainHeader: HeaderIndex, scrollHeader: HeaderIndex, remainingHeight: real)
    requires LastToolbar(mainHeader).Some? && LastToolbar(mainHeader).value.el.clientHeight > 0
    modifies ScalableInners(scrollHeader.toolbars), LastToolbar(mainHeader).value.el
    ensures forall e :: e in scrollHeader.toolbars && Scalable(e) ==>
              Scaled(e.innerTitleEl.value, ScrollScale(scrollTop), false)
    ensures var last := LastToolbar(mainHeader).value.el;
            last.borderAlpha == BorderAlpha(scrollTop, remainingHeight, last.clientHeight)
  {
    var lastMainToolbar := LastToolbar(mainHeader);
    var scale := ScrollScale(scrollTop);
    var scaledOpacity := BorderAlpha(scrollTop, remainingHeight, lastMainToolbar.value.el.clientHeight);

    ScaleLargeTitles(scrollHeader.toolbars, scale, false);
    SetToolbarBorderColor(lastMainToolbar, scaledOpacity);
  }

  // ---------------------------------------------------------------------------
  // Active and inactive headers
  // ---------------------------------------------------------------------------

  function FirstTitle(index: HeaderIndex): Option<TitleEl>
  {
    if index.toolbars == [] then None else index.toolbars[0].ionTitleEl
  }

  function FirstButtons(index: HeaderIndex): seq<ButtonsEl>
  {
    if index.toolbars == [] then [] else index.toolbars[0].ionButtonsEl
  }

  function TitleFrame(index: HeaderIndex): set<object>
  {
    if FirstTitle(index).Some? then {FirstTitle(index).value} else {}
  }

  /** Everything that activating or deactivating `index` may write. */
  function HeaderFrame(index: HeaderIndex): set<object>
  {
    {index.el} + TitleFrame(index) + set b: object | b in FirstButtons(index)
  }

  /** What activating and deactivating a header write: its translucency flag, and the
      title and button groups of its first toolbar. */
  datatype HeaderFace = HeaderFace(noTranslucent: bool, title: Option<Fade>, buttons: seq<ButtonsFace>)

  ghost function HeaderFaceOf(index: HeaderIndex): HeaderFace
    reads HeaderFrame(index)
  {
    HeaderFace(
      index.el.noTranslucent,
      match FirstTitle(index)
      case None => None
      case Some(t) => Some(Fade(t.opacity, t.transition)),
      ButtonsFaces(FirstButtons(index)))
  }

  /** `makeHeaderInactive` on a face. */
  function Deactivated(h: HeaderFace, transition: bool): HeaderFace
  {
    if h.title.None? then h.(noTranslucent := true)
    else HeaderFace(true, Some(Fade(0.0, TransitionFor(transition))), SetCollapsible(h.buttons, 0.0, transition))
  }

  /** `makeHeaderActive` on a face. */
  function Activated(h: HeaderFace, transition: bool): HeaderFace
  {
    if h.title.None? then h
    else HeaderFace(false, Some(Fade(1.0, TransitionFor(transition))), SetCollapsible(h.buttons, 1.0, transition))
  }

  /** Title and collapsible groups at `opacity`, written with `transition`. */
  predicate ShowsAt(h: HeaderFace, opacity: real, transition: bool)
  {
    && h.title == Some(Fade(opacity, TransitionFor(transition)))
    && forall i :: 0 <= i < |h.buttons| && h.buttons[i].collapse ==>
         h.buttons[i].fade == Fade(opacity, TransitionFor(transition))
  }

  predicate IsActive(h: HeaderFace, transition: bool)
  {
    !h.noTranslucent && ShowsAt(h, 1.0, transition)
  }

  predicate IsInactive(h: HeaderFace, transition: bool)
  {
    h.noTranslucent && (h.title.Some? ==> ShowsAt(h, 0.0, transition))
  }

  /** `h2` differs from `h1` at most in the title's and the collapsible groups' styles and
      the flag. */
  predicate SameUntouched(h1: HeaderFace, h2: HeaderFace)
  {
    && h1.title.Some? == h2.title.Some?
    && |h1.buttons| == |h2.buttons|
    && forall i :: 0 <= i < |h1.buttons| ==>
         h1.buttons[i].collapse == h2.buttons[i].collapse &&
         (!h1.buttons[i].collapse ==> h1.buttons[i] == h2.buttons[i])
  }

  /** Deactivating always sets the flag; with a title it fades the title and the
      collapsible groups out; nothing else changes. */
  lemma DeactivatedIsInactive(h: HeaderFace, transition: bool)
    ensures IsInactive(Deactivated(h, transition), transition)
    ensures SameUntouched(h, Deactivated(h, transition))
    ensures h.title.None? ==> Deactivated(h, transition) == h.(noTranslucent := true)
  {
    SetCollapsibleShows(h.buttons, 0.0, transition);
  }

  /** Activating a header with a title makes it active; without a title it changes
      nothing, not even the flag. */
  lemma ActivatedIsActive(h: HeaderFace, transition: bool)
    ensures h.title.Some? ==> IsActive(Activated(h, transition), transition)
    ensures h.title.None? ==> Activated(h, transition) == h
    ensures SameUntouched(h, Activated(h, transition))
  {
    SetCollapsibleShows(h.buttons, 1.0, transition);
  }

  /** The translucency flag is handled asymmetrically: deactivating then activating
      leaves the flag set exactly when the first toolbar has no title. */
  lemma ActivationAsymmetry(h: HeaderFace, t1: bool, t2: bool)
    ensures Activated(Deactivated(h, t1), t2).noTranslucent <==> h.title.None?
  {
  }

  /** Deactivating, and activating, twice is the same as once. */
  lemma ActivationIdempotent(h: HeaderFace, transition: bool)
    ensures Deactivated(Deactivated(h, transition), transition) == Deactivated(h, transition)
    ensures Activated(Activated(h, transition), transition) == Activated(h, transition)
  {
    SetCollapsibleLastWins(h.buttons, 0.0, transition, 0.0, transition);
    SetCollapsibleLastWins(h.buttons, 1.0, transition, 1.0, transition);
  }

  method MakeHeaderInactive(headerIndex: HeaderIndex, transition: bool)
    modifies HeaderFrame(headerIndex)
    ensures HeaderFaceOf(headerIndex) == Deactivated(old(HeaderFaceOf(headerIndex)), transition)
  {
    headerIndex.el.noTranslucent := true;

    if |headerIndex.toolbars| == 0 {
      return;
    }

    var ionTitleEl := headerIndex.toolbars[0].ionTitleEl;
    if ionTitleEl.None? {
      return;
    }

    SetTitleOpacity(ionTitleEl.value, 0.0, transition);
    HideCollapsableButtons(headerIndex.toolbars[0].ionButtonsEl, transition);
  }

  method MakeHeaderActive(headerIndex: HeaderIndex, transition: bool)
    modifies HeaderFrame(headerIndex)
    ensures HeaderFaceOf(headerIndex) == Activated(old(HeaderFaceOf(headerIndex)), transition)
  {
    if |headerIndex.toolbars| == 0 {
      return;
    }

    var ionTitleEl := headerIndex.toolbars[0].ionTitleEl;
    if ionTitleEl.None? {
      return;
    }

    SetTitleOpacity(ionTitleEl.value, 1.0, transition);
    ShowCollapsableButtons(headerIndex.toolbars[0].ionButtonsEl, transition);

    headerIndex.el.noTranslucent := false;
  }

  // ---------------------------------------------------------------------------
  // Toolbar intersection
  // ---------------------------------------------------------------------------

  /** What an intersection event writes: both headers' faces and the border of the
      main header's last toolbar (None when the main header has no toolbar). */
  datatype SceneFace = SceneFace(main: HeaderFace, scroll: HeaderFace, border: Option<real>)

  ghost function SceneOf(mainHeader: HeaderIndex, scrollHeader: HeaderIndex): SceneFace
    reads HeaderFrame(mainHeader), HeaderFrame(scrollHeader), BorderFrame(LastToolbar(mainHeader))
  {
    SceneFace(
      HeaderFaceOf(mainHeader),
      HeaderFaceOf(scrollHeader),
      match LastToolbar(mainHeader)
      case None => None
      case Some(t) => Some(t.el.borderAlpha))
  }

  /** `handleToolbarIntersection` on a scene. */
  function ToolbarIntersection(s: SceneFace, isIntersecting: bool): SceneFace
  {
    if isIntersecting then
      SceneFace(Deactivated(s.main, true), Activated(s.scroll, false), if s.border.Some? then Some(0.0) else None)
    else
      SceneFace(Activated(s.main, true), Deactivated(s.scroll, true), if s.border.Some? then Some(MAX_BORDER_ALPHA) else None)
  }

  /** Whatever the prior scene: on intersection the main header is inactive (animated),
      the scroll header active (not animated) when it has a title, and the border clear;
      otherwise the main header is active when it has a title, the scroll header inactive,
      and the border at full alpha. Either way nothing else changes. */
  lemma ToolbarIntersectionOutcome(s: SceneFace, isIntersecting: bool)
    ensures var r := ToolbarIntersection(s, isIntersecting);
      && SameUntouched(s.main, r.main) && SameUntouched(s.scroll, r.scroll)
      && r.border.Some? == s.border.Some?
      && (isIntersecting ==>
            && IsInactive(r.main, true)
            && (s.scroll.title.Some? ==> IsActive(r.scroll, false))
            && (s.border.Some? ==> r.border == Some(0.0)))
      && (!isIntersecting ==>
            && (s.main.title.Some? ==> IsActive(r.main, true))
            && IsInactive(r.scroll, true)
            && (s.border.Some? ==> r.border == Some(MAX_BORDER_ALPHA)))
  {
    DeactivatedIsInactive(s.main, true);
    ActivatedIsActive(s.main, true);
    DeactivatedIsInactive(s.scroll, true);
    ActivatedIsActive(s.scroll, false);
  }

  /** Handling the same event twice is handling it once. */
  lemma ToolbarIntersectionIdempotent(s: SceneFace, isIntersecting: bool)
    ensures ToolbarIntersection(ToolbarIntersection(s, isIntersecting), isIntersecting)
         == ToolbarIntersection(s, isIntersecting)
  {
    ActivationIdempotent(s.main, true);
    ActivationIdempotent(s.scroll, true);
    ActivationIdempotent(s.scroll, false);
  }

  /** The two headers are distinct parts of the document: none of the elements that
      activating or deactivating one of them writes belongs to the other. */
  predicate Separate(mainHeader: HeaderIndex, scrollHeader: HeaderIndex)
  {
    HeaderFrame(mainHeader) !! HeaderFrame(scrollHeader)
  }

  /** A header's face depends on nothing outside the header's frame. */
  twostate lemma FaceKept(index: HeaderIndex)
    requires unchanged(index.el)
    requires FirstTitle(index).Some? ==> unchanged(FirstTitle(index).value)
    requires forall b :: b in FirstButtons(index) ==> unchanged(b)
    ensures HeaderFaceOf(index) == old(HeaderFaceOf(index))
  {
    var buttons := FirstButtons(index);
    forall i | 0 <= i < |buttons|
      ensures ButtonsFaces(buttons)[i] == old(ButtonsFaces(buttons))[i]
    {
      assert buttons[i] in buttons;
    }
  }

  /** A toolbar's border is never part of a header's frame. */
  lemma BorderApart(toolbar: Option<ToolbarEntry>, index: HeaderIndex)
    ensures BorderFrame(toolbar) !! HeaderFrame(index)
  {
  }

  method HandleToolbarIntersection(isIntersecting: bool, mainHeader: HeaderIndex, scrollHeader: HeaderIndex)
    requires Separate(mainHeader, scrollHeader)
    modifies HeaderFrame(mainHeader), HeaderFrame(scrollHeader), BorderFrame(LastToolbar(mainHeader))
    ensures SceneOf(mainHeader, scrollHeader) == ToolbarIntersection(old(SceneOf(mainHeader, scrollHeader)), isIntersecting)
  {
    var lastMainHeaderToolbar := LastToolbar(mainHeader);
    BorderApart(lastMainHeaderToolbar, mainHeader);
    BorderApart(lastMainHeaderToolbar, scrollHeader);

    label Start:
    if isIntersecting {
      MakeHeaderInactive(mainHeader, true);
      FaceKept@Start(scrollHeader);
      label Between:
      MakeHeaderActive(scrollHeader, false);
      FaceKept@Between(mainHeader);
      label Border:
      SetToolbarBorderColor(lastMainHeaderToolbar, 0.0);
      FaceKept@Border(mainHeader);
      FaceKept@Border(scrollHeader);
    } else {
      MakeHeaderActive(mainHeader, true);
      FaceKept@Start(scrollHeader);
      label Between:
      MakeHeaderInactive(scrollHeader, true);
      FaceKept@Between(mainHeader);
      label Border:
      SetToolbarBorderColor(lastMainHeaderToolbar, MAX_BORDER_ALPHA);
      FaceKept@Border(mainHeader);
      FaceKept@Border(scrollHeader);
    }
  }
}
