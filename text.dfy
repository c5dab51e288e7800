/**
 * Text drawables: a text style made of five style sheets, the draw state it
 * is resolved into, and the drawable that binds them.
 *
 * A style sheet yields a value of its type for a widget's property set. How
 * a sheet with overrides picks its value is not part of this model: a sheet
 * is its default value together with an arbitrary resolution function, and
 * only a default-only sheet (`NewDefault`) is known to resolve to its default
 * for every property set. Colours and font ids are opaque values; sizes are
 * reals used only as constants.
 */
module Text {
  import opened Ui

  /** Key of a loaded font in the font store. */
  datatype FontId = Id(index: nat)

  type Scalar = real

  datatype Color = Black | Transparent | Rgba(components: seq<real>)

  /** A sheet's default value and `apply`, the value it gives a widget with a given property set. */
  datatype StyleSheet<T> = StyleSheet(default: T, apply: PropSet -> T)
  {
    /** Every property set gets the default. */
    ghost predicate DefaultOnly()
    {
      forall props :: apply(props) == default
    }
  }

  /** A sheet with no overrides: every property set gets `v`. */
  function NewDefault<T>(v: T): (s: StyleSheet<T>)
    ensures s.default == v && s.DefaultOnly()
  {
    StyleSheet(v, _ => v)
  }

  /** What draws a text: the resolved text, font, size and colours. */
  class TextDrawState {
    var text: string
    var fontId: FontId
    var fontSize: Scalar
    var textColor: Color
    var backgroundColor: Color

    constructor New(text: string, fontId: FontId, fontSize: Scalar, textColor: Color, backgroundColor: Color)
      ensures this.text == text && this.fontId == fontId && this.fontSize == fontSize
      ensures this.textColor == textColor && this.backgroundColor == backgroundColor
    {
      this.text := text;
      this.fontId := fontId;
      this.fontSize := fontSize;
      this.textColor := textColor;
      this.backgroundColor := backgroundColor;
    }

    /** Black text of size 24 on a transparent background. */
    constructor NewDefault(text: string, fontId: FontId)
      ensures this.text == text && this.fontId == fontId && fontSize == 24.0
      ensures textColor == Black && backgroundColor == Transparent
    {
      this.text := text;
      this.fontId := fontId;
      fontSize := 24.0;
      textColor := Black;
      backgroundColor := Transparent;
    }

    /** The state a style gives before any property set is applied: each sheet's default. */
    constructor NewStyle(style: TextStyle)
      ensures text == style.text.default && fontId == style.fontId.default
      ensures fontSize == style.fontSize.default
      ensures textColor == style.textColor.default && backgroundColor == style.backgroundColor.default
    {
      text := style.text.default;
      fontId := style.fontId.default;
      fontSize := style.fontSize.default;
      textColor := style.textColor.default;
      backgroundColor := style.backgroundColor.default;
    }
  }

  class TextStyle {
    var text: StyleSheet<string>
    var fontId: StyleSheet<FontId>
    var fontSize: StyleSheet<Scalar>
    var textColor: StyleSheet<Color>
    var backgroundColor: StyleSheet<Color>

    /**
     * A copy of the toolkit's default text style: empty text in the first
     * font loaded, size 20, black on transparent, with no overrides.
     */
    constructor Default()
      ensures text == NewDefault("") && fontId == NewDefault(Id(0)) && fontSize == NewDefault(20.0)
      ensures textColor == NewDefault(Black) && backgroundColor == NewDefault(Transparent)
      ensures DefaultOnly()
    {
      text := NewDefault("");
      fontId := NewDefault(Id(0));
      fontSize := NewDefault(20.0);
      textColor := NewDefault(Black);
      backgroundColor := NewDefault(Transparent);
    }

    /** Whether no sheet depends on the property set (true of the default style and its `With` edits). */
    ghost predicate DefaultOnly()
      reads this
    {
      && text.DefaultOnly() && fontId.DefaultOnly() && fontSize.DefaultOnly()
      && textColor.DefaultOnly() && backgroundColor.DefaultOnly()
    }

    method WithText(t: string) returns (r: TextStyle)
      modifies this
      ensures r == this && text == NewDefault(t)
      ensures fontId == old(fontId) && fontSize == old(fontSize)
      ensures textColor == old(textColor) && backgroundColor == old(backgroundColor)
      ensures old(DefaultOnly()) ==> DefaultOnly()
    {
      text := NewDefault(t);
      r := this;
    }

    method WithTextColor(c: Color) returns (r: TextStyle)
      modifies this
      ensures r == this && textColor == NewDefault(c)
      ensures text == old(text) && fontId == old(fontId) && fontSize == old(fontSize)
      ensures backgroundColor == old(backgroundColor)
      ensures old(DefaultOnly()) ==> DefaultOnly()
    {
      textColor := NewDefault(c);
      r := this;
    }

    method WithBackgroundColor(c: Color) returns (r: TextStyle)
      modifies this
      ensures r == this && backgroundColor == NewDefault(c)
      ensures text == old(text) && fontId == old(fontId) && fontSize == old(fontSize)
      ensures textColor == old(textColor)
      ensures old(DefaultOnly()) ==> DefaultOnly()
    {
      backgroundColor := NewDefault(c);
      r := this;
    }

    /** Resolves every sheet against `props` into `state`; the style itself is left alone. */
    method Apply(state: TextDrawState, props: PropSet)
      modifies state
      ensures state.text == text.apply(props) && state.fontId == fontId.apply(props)
      ensures state.fontSize == fontSize.apply(props)
      ensures state.textColor == textColor.apply(props)
      ensures state.backgroundColor == backgroundColor.apply(props)
      ensures DefaultOnly() ==>
        && state.text == text.default && state.fontId == fontId.default && state.fontSize == fontSize.default
        && state.textColor == textColor.default && state.backgroundColor == backgroundColor.default
    {
      state.text := text.apply(props);
      state.fontId := fontId.apply(props);
      state.fontSize := fontSize.apply(props);
      state.textColor := textColor.apply(props);
      state.backgroundColor := backgroundColor.apply(props);
    }
  }

  /** The draw function a text drawable carries (glyph layout and rendering are not modelled). */
  datatype DrawFn = DrawTextFn

  /** The function that re-applies a drawable's style when its widget's properties change. */
  datatype ApplyFn = ApplyTextStyleFn

  datatype WidgetStyle = WidgetStyle(style: TextStyle, apply: ApplyFn)

  datatype Drawable = Drawable(state: TextDrawState, draw: DrawFn, style: Option<WidgetStyle>)

  /** A text drawable for `style`, starting from the style's defaults. */
  method TextDrawable(style: TextStyle) returns (d: Drawable)
    ensures fresh(d.state) && d.draw == DrawTextFn && d.style == Some(WidgetStyle(style, ApplyTextStyleFn))
    ensures d.state.text == style.text.default && d.state.fontId == style.fontId.default
    ensures d.state.fontSize == style.fontSize.default
    ensures d.state.textColor == style.textColor.default
    ensures d.state.backgroundColor == style.backgroundColor.default
  {
    var state := new TextDrawState.NewStyle(style);
    d := Drawable(state, DrawTextFn, Some(WidgetStyle(style, ApplyTextStyleFn)));
  }

  /** `apply_text_style`: what a text drawable's `ApplyTextStyleFn` does for a property set. */
  method ApplyTextStyle(d: Drawable, props: PropSet)
    requires d.style.Some?
    modifies d.state
    ensures var s := d.style.value.style;
      && d.state.text == s.text.apply(props) && d.state.fontId == s.fontId.apply(props)
      && d.state.fontSize == s.fontSize.apply(props)
      && d.state.textColor == s.textColor.apply(props)
      && d.state.backgroundColor == s.backgroundColor.apply(props)
  {
    d.style.value.style.Apply(d.state, props);
  }
}
