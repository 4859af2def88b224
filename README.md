# Collapsing large-title header, modelled in Dafny

This project models the collapsing-header logic of an Ionic `ion-header` with a
large title (`core/src/components/header/header.utils.ts`). Two headers take
part. The main header is the condensed toolbar that stays at the top. The scroll
header sits inside the scrolling content and shows the large title. The logic:

- builds a header index, recording for every `ion-toolbar` its first `ion-title`,
  that title's inner `.toolbar-title` node and its `ion-buttons` groups;
- on every scroll sample, computes the large-title scale and the alpha of the main
  header's bottom border, then writes them;
- on every intersection event, makes one header active and the other inactive.
  Active means the title is shown, the collapsible button groups are shown and
  translucency is allowed. Inactive means the `no-translucent` class is set, the
  title is faded out and the collapsible button groups are hidden.

`dom.dfy` (module `Dom`) holds the document elements as classes. Each element
kind the logic touches has its own class. What a selector query returns is a
`const` sequence in document order. The inline styles, the border alpha and the
`no-translucent` class are mutable fields.

`header_utils.dfy` (module `HeaderUtils`) holds the logic itself:

- The header index is a datatype of element references, as it is in the source.
  Building it is a pure function.
- The clamp, the scale formula and the border-alpha formula are pure functions
  on `real`, with their bounds and monotonicity proved.
- The style writes are methods that change the element objects in place. The
  button and title loops are `for` loops with invariants.
- Activation and deactivation are specified through a ghost "face". The face of
  a header is its flag plus the styles of its first toolbar's title and button
  groups. Each method's postcondition says that the new face is a pure function
  (`Deactivated`, `Activated`, `ToolbarIntersection`) of the old face. The
  properties are then proved as lemmas about those functions: the fixed outcome,
  idempotence and the flag asymmetry.

Facts about the code that the model keeps as written:

- At scroll offset 0 the code computes `clampValue(1 + (-0/500), 1.1, 1)`, which is 1
  (header.utils.ts:45). The scale grows above 1 only for negative offsets and
  reaches 1.1 only for offsets ≤ −50. The model proves scale 1 for every offset ≥ 0.
- The border alpha divides by `clientHeight` without a guard (header.utils.ts:47),
  and the last main toolbar is read without checking that one exists (:44). The
  model states both as preconditions of `BorderAlpha` and `HandleContentScroll`.
- Deactivating sets `no-translucent` unconditionally (:81). Activating clears it
  only when the first toolbar has a title (:100, :105). `ActivationAsymmetry`
  proves the consequence.
- The doc comment of `handleToolbarIntersection` (:58-62) describes the reversed
  mapping: on intersection it would show the main toolbar's content. The code
  (:68-76) makes the main header inactive and the scroll header active on
  intersection, and the model follows the code.

## Model

| member | source | states |
|---|---|---|
| HeaderUtils.CreateHeaderIndex | core/src/components/header/header.utils.ts:11-28 | absent header gives no index; otherwise the index holds the header and one entry per toolbar in document order, each with the toolbar's first title (none exactly when it has no title), that title's first inner node (always none without a title) and all its button groups |
| HeaderUtils.InnerTitleAbsentIffNoTitle | core/src/components/header/header.utils.ts:19-23 | when every title renders its inner node, an entry's inner title is absent exactly when the toolbar has no title |
| HeaderUtils.ClampValue | core/src/components/header/header.utils.ts:30-38 | with min ≤ max the result lies in [min, max]; a value already in range is returned unchanged; a value above max gives max, one below min gives min |
| HeaderUtils.ClampMonotone | core/src/components/header/header.utils.ts:30-38 | clamping preserves the order of two values |
| HeaderUtils.ScrollScale | core/src/components/header/header.utils.ts:45 | the title scale always lies in [1, 1.1] |
| HeaderUtils.ScrollScaleRests | core/src/components/header/header.utils.ts:45 | the scale is 1 for every scroll offset ≥ 0 |
| HeaderUtils.ScrollScaleFullPull | core/src/components/header/header.utils.ts:45 | the scale is 1.1 for every scroll offset ≤ −50 |
| HeaderUtils.ScrollScaleMonotone | core/src/components/header/header.utils.ts:45 | the scale is non-increasing in the scroll offset |
| HeaderUtils.BorderAlpha | core/src/components/header/header.utils.ts:44-49 | for a toolbar of positive height the border alpha lies in [0, 0.2] |
| HeaderUtils.BorderAlphaNone | core/src/components/header/header.utils.ts:47-49 | the alpha is 0 while the offset is at most `remainingHeight` |
| HeaderUtils.BorderAlphaFull | core/src/components/header/header.utils.ts:47-49 | the alpha is 0.2 once the offset reaches `remainingHeight` plus the toolbar height |
| HeaderUtils.BorderAlphaMonotone | core/src/components/header/header.utils.ts:47-49 | the alpha is non-decreasing in the scroll offset |
| HeaderUtils.SetToolbarBorderColor | core/src/components/header/header.utils.ts:5-9 | an absent toolbar is left alone; otherwise its border alpha becomes the given one and nothing else is written |
| HeaderUtils.SetTitleOpacity | core/src/components/header/header.utils.ts:108-111 | the title's opacity becomes the given value and its transition the fixed transition or empty, as the flag says |
| HeaderUtils.SetButtonsOpacity | core/src/components/header/header.utils.ts:108-111 | the same write on a button group |
| HeaderUtils.SetCollapsibleAt | core/src/components/header/header.utils.ts:113-127 | after writing the collapsible groups, group k keeps its kind; it carries the new opacity and transition exactly when it is collapsible, and is unchanged otherwise |
| HeaderUtils.SetCollapsibleShows | core/src/components/header/header.utils.ts:113-127 | the same over all groups at once: every collapsible group shows the new style, every other group is unchanged |
| HeaderUtils.SetCollapsibleLastWins | core/src/components/header/header.utils.ts:113-127 | of two writes to the collapsible groups only the second is visible: hiding or showing twice is doing it once, and showing after hiding shows |
| HeaderUtils.SetCollapsibleButtonsOpacity | core/src/components/header/header.utils.ts:113-127 | every collapsible group gets the opacity and transition; every other group keeps its style; no other object is written |
| HeaderUtils.HideCollapsableButtons | core/src/components/header/header.utils.ts:113-119 | collapsible groups get opacity 0 with the requested transition; the others are untouched |
| HeaderUtils.ShowCollapsableButtons | core/src/components/header/header.utils.ts:121-127 | collapsible groups get opacity 1 with the requested transition; the others are untouched |
| HeaderUtils.ScaleLargeTitles | core/src/components/header/header.utils.ts:129-141 | every toolbar with a large title and an inner node gets origin "left center", the scale and the transition per the flag; only those inner nodes are written |
| HeaderUtils.HandleContentScroll | core/src/components/header/header.utils.ts:40-56 | the scroll header's large titles show `ScrollScale(scrollTop)` without transition, and the main header's last toolbar shows `BorderAlpha` of the offset, `remainingHeight` and its height; nothing else is written |
| HeaderUtils.DeactivatedIsInactive | core/src/components/header/header.utils.ts:80-92 | deactivating always sets `no-translucent`; with a title it fades the title and the collapsible groups to 0; non-collapsible groups are untouched |
| HeaderUtils.ActivatedIsActive | core/src/components/header/header.utils.ts:94-106 | activating a header whose first toolbar has a title shows title and collapsible groups at 1 and clears the flag; without toolbars or title it changes nothing |
| HeaderUtils.ActivationAsymmetry | core/src/components/header/header.utils.ts:81 | after deactivating and then activating, the flag is set exactly when the first toolbar has no title |
| HeaderUtils.ActivationIdempotent | core/src/components/header/header.utils.ts:80-106 | deactivating twice, or activating twice, equals doing it once |
| HeaderUtils.MakeHeaderInactive | core/src/components/header/header.utils.ts:80-92 | the header's new face is `Deactivated` of its old face; only the header, its first title and its first toolbar's groups may be written |
| HeaderUtils.MakeHeaderActive | core/src/components/header/header.utils.ts:94-106 | the header's new face is `Activated` of its old face; only the header, its first title and its first toolbar's groups may be written |
| HeaderUtils.ToolbarIntersectionOutcome | core/src/components/header/header.utils.ts:63-78 | whatever the prior scene: intersecting makes the main header inactive (animated), the scroll header active (not animated) if it has a title, and the border 0; not intersecting makes the main header active if it has a title, the scroll header inactive and the border 0.2; without a main toolbar there is no border write; nothing else changes |
| HeaderUtils.ToolbarIntersectionIdempotent | core/src/components/header/header.utils.ts:63-78 | handling the same intersection event twice equals handling it once |
| HeaderUtils.HandleToolbarIntersection | core/src/components/header/header.utils.ts:63-78 | for two separate headers the new scene is `ToolbarIntersection` of the old scene |

## Left out

- The `readTask`/`writeTask` frame scheduling is left out. `HandleContentScroll` computes the scale and the alpha and then writes them, in sequence.
- DOM queries (`querySelectorAll`, `querySelector`, `shadowRoot`, `Array.from`) are replaced by `const` sequences of matches in document order. A missing shadow root, where the source's `!` would throw, is not modelled.
- CSS strings are not rendered. The border is kept as its alpha, and the transform as its scale factor. `TRANSITION` and "left center" are kept as strings.
- Numbers are exact `real`s. IEEE rounding, NaN and infinities are not modelled.
- `HeaderUtils.BorderAlpha`, `HeaderUtils.HandleContentScroll`: they require a non-empty main toolbar list and a positive height for its last toolbar. The source has no guard for either. An empty toolbar list throws when `lastMainToolbar.el` is read (:47). A zero height makes the quotient ±Infinity, which `clampValue` clamps (:31-35): the alpha is then 0.2 past `remainingHeight`, 0 before it, and NaN only when the offset equals `remainingHeight` exactly. The zero-height case is not modelled.
- `HeaderUtils.HandleToolbarIntersection`: it requires the two headers to share none of the elements that activation writes. The callers always pass two different headers. The outcome for one header passed twice is not modelled.
- The intersection event is reduced to the `isIntersecting` flag of its first entry.
