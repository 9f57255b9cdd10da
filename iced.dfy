/**
 * The value types of the GUI toolkit that the style builders store.
 * The builders never compute with these values, they only copy them into
 * records and hand them back, so each is kept as plain data: a 32-bit
 * float is carried as its bit pattern, and a gradient as an opaque token.
 */
module Iced {

  /** An `f32`, kept as its IEEE 754 bit pattern; no arithmetic is done on it. */
  type F32 = bv32

  /** The bit pattern of `0.0`. */
  const ZERO: F32 := 0x0000_0000
  /** The bit pattern of `1.0`. */
  const ONE: F32 := 0x3F80_0000

  /** `iced::Color`: red, green, blue and alpha channels. */
  datatype Color = Rgba(r: F32, g: F32, b: F32, a: F32)

  /** `Color::BLACK`: opaque black. */
  const BLACK: Color := Rgba(ZERO, ZERO, ZERO, ONE)
  /** `Color::WHITE`: opaque white. */
  const WHITE: Color := Rgba(ONE, ONE, ONE, ONE)
  /** `Color::TRANSPARENT`: every channel zero. */
  const TRANSPARENT: Color := Rgba(ZERO, ZERO, ZERO, ZERO)
  /** `Color::default()`: the derived default, every channel zero. */
  const DEFAULT_COLOR: Color := Rgba(ZERO, ZERO, ZERO, ZERO)

  /** `iced::BorderRadius`: one radius per corner. */
  datatype BorderRadius = BorderRadius(topLeft: F32, topRight: F32, bottomRight: F32, bottomLeft: F32)

  /** `BorderRadius::default()`: every corner zero. */
  const DEFAULT_RADIUS: BorderRadius := BorderRadius(ZERO, ZERO, ZERO, ZERO)

  /** `BorderRadius::from(radius)`: the same radius on every corner. */
  function RadiusFrom(radius: F32): (r: BorderRadius)
    ensures r.topLeft == r.topRight == r.bottomRight == r.bottomLeft == radius
  {
    BorderRadius(radius, radius, radius, radius)
  }

  /** A gradient of the toolkit; the builders only store it, so it stays opaque. */
  type GradientToken = nat

  /** `iced::Background`: a solid colour or a gradient. */
  datatype Background = Color(color: Color) | Gradient(gradient: GradientToken)

  /** The three named colours are pairwise distinct. */
  lemma NamedColorsDistinct()
    ensures BLACK != WHITE && BLACK != TRANSPARENT && WHITE != TRANSPARENT
  {
  }
}
