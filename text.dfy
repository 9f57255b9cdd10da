/** `CustomTextStyle`: a text colour, and its conversion to the toolkit's text style. */
module Text {
  import opened Wrappers
  import opened Iced

  /** `text::Appearance`: an optional colour. */
  datatype Appearance = Appearance(color: Option<Color>)

  /** `iced::theme::Text`: the theme's default text style, or a fixed colour. */
  datatype ThemeText = Default | Color(color: Color)

  datatype CustomTextStyle = CustomTextStyle(appearance: Appearance)
  {
    /** `CustomTextStyle::new`: black text. */
    static function New(): (s: CustomTextStyle)
      ensures s.appearance.color == Some(BLACK)
    {
      CustomTextStyle(Appearance(Some(BLACK)))
    }

    /** `color`: sets the colour, which is then never absent. */
    function Color(color: Iced.Color): (r: CustomTextStyle)
      ensures r.appearance.color == Some(color)
    {
      this.(appearance := appearance.(color := Some(color)))
    }

    /** `as_custom`: the stored colour as a fixed-colour text style, `TRANSPARENT` when there is none. */
    function AsCustom(): (r: ThemeText)
      ensures r.Color?
      ensures appearance.color.Some? ==> r.color == appearance.color.value
      ensures appearance.color.None? ==> r.color == TRANSPARENT
    {
      ThemeText.Color(appearance.color.UnwrapOr(TRANSPARENT))
    }

    /** The `StyleSheet` getter: the appearance the setter built. */
    function SheetAppearance(): (r: Appearance)
      ensures CustomTextStyle(r) == this
    {
      appearance
    }
  }

  /** Setting the colour twice: the last write wins. */
  lemma LastColorWins(s: CustomTextStyle, first: Iced.Color, second: Iced.Color)
    ensures s.Color(first).Color(second) == s.Color(second)
  {
  }

  /** A style built with `new()` converts to black text, and after `color(c)` to `c`. */
  lemma AsCustomOfBuilt(color: Iced.Color)
    ensures CustomTextStyle.New().AsCustom() == ThemeText.Color(BLACK)
    ensures CustomTextStyle.New().Color(color).AsCustom() == ThemeText.Color(color)
  {
  }

  /** `as_custom` gives `TRANSPARENT` only for an absent or transparent colour. */
  lemma AsCustomTransparent(s: CustomTextStyle)
    ensures s.AsCustom() == ThemeText.Color(TRANSPARENT) <==>
      (s.appearance.color == None || s.appearance.color == Some(TRANSPARENT))
  {
  }
}
