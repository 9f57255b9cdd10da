/** `CustomSvgStyle`: an optional colour for an SVG image. */
module Svg {
  import opened Wrappers
  import opened Iced

  /** `svg::Appearance`: an optional colour, absent by default. */
  datatype Appearance = Appearance(color: Option<Color>)

  datatype CustomSvgStyle = CustomSvgStyle(appearance: Appearance)
  {
    /** `CustomSvgStyle::new`: no colour (the `Default` of `Option`). */
    static function New(): (s: CustomSvgStyle)
      ensures s.appearance.color == None
    {
      CustomSvgStyle(Appearance(None))
    }

    /** `color`: stores exactly the given option, an absent colour included. */
    function Color(color: Option<Iced.Color>): (r: CustomSvgStyle)
      ensures r.appearance.color == color
    {
      this.(appearance := appearance.(color := color))
    }

    /** The `StyleSheet` getter: the appearance the setter built. */
    function SheetAppearance(): (r: Appearance)
      ensures CustomSvgStyle(r) == this
    {
      appearance
    }
  }

  /** Setting the colour twice: the last write wins. */
  lemma LastColorWins(s: CustomSvgStyle, first: Option<Color>, second: Option<Color>)
    ensures s.Color(first).Color(second) == s.Color(second)
  {
  }

  /** The getter returns what the last `color` call stored, whatever was there before. */
  lemma ColorIsShown(s: CustomSvgStyle, color: Option<Color>)
    ensures s.Color(color).SheetAppearance().color == color
    ensures s.Color(color) == CustomSvgStyle.New().Color(color)
  {
  }
}
