/** The part of the document that the collapsing-header logic reads and writes.

    Each element kind the logic touches is a class of its own. What a selector query
    on an element returns is fixed structure (a `const` sequence in document order);
    the inline styles and the `no-translucent` class are the mutable state. Styles
    the logic never writes, and every other element, are not modelled.
 */
module Dom {

  datatype Option<+T> = None | Some(value: T)

  /** What `querySelector` returns for a query whose matches, in document order,
      are `matches`: the first one, or None for `null`. */
  function First<T>(matches: seq<T>): Option<T>
  {
    if matches == [] then None else Some(matches[0])
  }

  /** The `size` property of an `ion-title`; Unset when the attribute is absent. */
  datatype TitleSize = Unset | Small | Large

  /** An `ion-header` element. */
  class HeaderEl {
    /** Its `ion-toolbar` descendants in document order. */
    const ionToolbars: seq<ToolbarEl>
    /** Whether its class list holds `no-translucent`. */
    var noTranslucent: bool

    /** A header with the given toolbars, its class list holding `no-translucent` as
        `noTranslucent` says. */
    constructor (ionToolbars: seq<ToolbarEl>, noTranslucent: bool)
      ensures this.ionToolbars == ionToolbars && this.noTranslucent == noTranslucent
    {
      this.ionToolbars := ionToolbars;
      this.noTranslucent := noTranslucent;
    }
  }

  /** An `ion-toolbar` element. */
  class ToolbarEl {
    /** Its `ion-title` descendants in document order. */
    const ionTitles: seq<TitleEl>
    /** Its `ion-buttons` descendants in document order. */
    const ionButtons: seq<ButtonsEl>
    /** Its rendered height in CSS pixels, as layout reports it. */
    const clientHeight: nat
    /** The alpha channel of its `--border-color` custom property, `rgba(0, 0, 0, alpha)`. */
    var borderAlpha: real

    constructor (ionTitles: seq<TitleEl>, ionButtons: seq<ButtonsEl>, clientHeight: nat, borderAlpha: real)
      ensures this.ionTitles == ionTitles && this.ionButtons == ionButtons
      ensures this.clientHeight == clientHeight && this.borderAlpha == borderAlpha
    {
      this.ionTitles := ionTitles;
      this.ionButtons := ionButtons;
      this.clientHeight := clientHeight;
      this.borderAlpha := borderAlpha;
    }
  }

  /** An `ion-title` element. */
  class TitleEl {
    const size: TitleSize
    /** The `.toolbar-title` nodes of its shadow root, in document order. */
    const toolbarTitles: seq<TitleInnerEl>
    var opacity: real
    /** The `transition` style; the empty string when unset. */
    var transition: string

    constructor (size: TitleSize, toolbarTitles: seq<TitleInnerEl>, opacity: real, transition: string)
      ensures this.size == size && this.toolbarTitles == toolbarTitles
      ensures this.opacity == opacity && this.transition == transition
    {
      this.size := size;
      this.toolbarTitles := toolbarTitles;
      this.opacity := opacity;
      this.transition := transition;
    }
  }

  /** The `.toolbar-title` node inside an `ion-title`'s shadow root. */
  class TitleInnerEl {
    var transformOrigin: string
    /** The factor `s` of its `scale3d(s, s, 1)` transform. */
    var scale: real
    var transition: string

    constructor (transformOrigin: string, scale: real, transition: string)
      ensures this.transformOrigin == transformOrigin && this.scale == scale && this.transition == transition
    {
      this.transformOrigin := transformOrigin;
      this.scale := scale;
      this.transition := transition;
    }
  }

  /** An `ion-buttons` element. */
  class ButtonsEl {
    /** Set by the page author: the group fades out with an inactive header. */
    const collapse: bool
    var opacity: real
    var transition: string

    constructor (collapse: bool, opacity: real, transition: string)
      ensures this.collapse == collapse && this.opacity == opacity && this.transition == transition
    {
      this.collapse := collapse;
      this.opacity := opacity;
      this.transition := transition;
    }
  }
}
