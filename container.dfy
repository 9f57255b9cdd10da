/** `CustomContainerStyle`: a single container appearance and a setter per field. */
module Container {
  import opened Wrappers
  import opened Iced

  /** `container::Appearance`. */
  datatype Appearance = Appearance(
    textColor: Option<Color>,
    background: Option<Background>,
    borderRadius: BorderRadius,
    borderWidth: F32,
    borderColor: Color)

  datatype CustomContainerStyle = CustomContainerStyle(appearance: Appearance)
  {
    /** `CustomContainerStyle::new`: no text colour, no background, zero border width, default radius and border colour. */
    static function New(): (s: CustomContainerStyle)
      ensures s.appearance.textColor == None && s.appearance.background == None
      ensures s.appearance.borderWidth == ZERO
      ensures s.appearance.borderRadius == DEFAULT_RADIUS && s.appearance.borderColor == DEFAULT_COLOR
    {
      CustomContainerStyle(Appearance(None, None, DEFAULT_RADIUS, ZERO, DEFAULT_COLOR))
    }

    // Each setter writes one field of the appearance; putting the old value back gives back the old style.

    function Background(background: Option<Background>): (r: CustomContainerStyle)
      ensures r.appearance.background == background
      ensures r.(appearance := r.appearance.(background := appearance.background)) == this
    {
      this.(appearance := appearance.(background := background))
    }

    function BackgroundColor(color: Color): (r: CustomContainerStyle)
      ensures r.appearance.background == Some(Iced.Background.Color(color))
      ensures r.(appearance := r.appearance.(background := appearance.background)) == this
    {
      this.(appearance := appearance.(background := Some(Iced.Background.Color(color))))
    }

    function BorderRadius(radius: BorderRadius): (r: CustomContainerStyle)
      ensures r.appearance.borderRadius == radius
      ensures r.(appearance := r.appearance.(borderRadius := appearance.borderRadius)) == this
    {
      this.(appearance := appearance.(borderRadius := radius))
    }

    function BorderWidth(width: F32): (r: CustomContainerStyle)
      ensures r.appearance.borderWidth == width
      ensures r.(appearance := r.appearance.(borderWidth := appearance.borderWidth)) == this
    {
      this.(appearance := appearance.(borderWidth := width))
    }

    function BorderColor(color: Color): (r: CustomContainerStyle)
      ensures r.appearance.borderColor == color
      ensures r.(appearance := r.appearance.(borderColor := appearance.borderColor)) == this
    {
      this.(appearance := appearance.(borderColor := color))
    }

    function TextColor(color: Option<Color>): (r: CustomContainerStyle)
      ensures r.appearance.textColor == color
      ensures r.(appearance := r.appearance.(textColor := appearance.textColor)) == this
    {
      this.(appearance := appearance.(textColor := color))
    }

    /** The `StyleSheet` getter: the appearance the setters built. */
    function SheetAppearance(): (r: Appearance)
      ensures CustomContainerStyle(r) == this
    {
      appearance
    }
  }

  /** `background_color(c)` is `background(Some(Background::Color(c)))`. */
  lemma BackgroundColorIsBackground(s: CustomContainerStyle, color: Color)
    ensures s.BackgroundColor(color) == s.Background(Some(Iced.Background.Color(color)))
  {
  }

  /** Writing a field twice: the last write wins. */
  lemma LastWriteWins(s: CustomContainerStyle, b1: Option<Background>, b2: Option<Background>,
                      c1: Color, c2: Color, r1: BorderRadius, r2: BorderRadius,
                      w1: F32, w2: F32, t1: Option<Color>, t2: Option<Color>)
    ensures s.Background(b1).Background(b2) == s.Background(b2)
    ensures s.BackgroundColor(c1).Background(b2) == s.Background(b2)
    ensures s.Background(b1).BackgroundColor(c2) == s.BackgroundColor(c2)
    ensures s.BorderRadius(r1).BorderRadius(r2) == s.BorderRadius(r2)
    ensures s.BorderWidth(w1).BorderWidth(w2) == s.BorderWidth(w2)
    ensures s.BorderColor(c1).BorderColor(c2) == s.BorderColor(c2)
    ensures s.TextColor(t1).TextColor(t2) == s.TextColor(t2)
  {
  }

  /** Setters of different fields do not interfere: they may be applied in either order. */
  lemma SettersOfDifferentFieldsCommute(s: CustomContainerStyle, b: Option<Background>, c: Color,
                                        radius: BorderRadius, w: F32, t: Option<Color>)
    ensures s.Background(b).BorderRadius(radius) == s.BorderRadius(radius).Background(b)
    ensures s.Background(b).BorderWidth(w) == s.BorderWidth(w).Background(b)
    ensures s.Background(b).BorderColor(c) == s.BorderColor(c).Background(b)
    ensures s.Background(b).TextColor(t) == s.TextColor(t).Background(b)
    ensures s.BorderRadius(radius).BorderWidth(w) == s.BorderWidth(w).BorderRadius(radius)
    ensures s.BorderRadius(radius).BorderColor(c) == s.BorderColor(c).BorderRadius(radius)
    ensures s.BorderRadius(radius).TextColor(t) == s.TextColor(t).BorderRadius(radius)
    ensures s.BorderWidth(w).BorderColor(c) == s.BorderColor(c).BorderWidth(w)
    ensures s.BorderWidth(w).TextColor(t) == s.TextColor(t).BorderWidth(w)
    ensures s.BorderColor(c).TextColor(t) == s.TextColor(t).BorderColor(c)
  {
  }
}
