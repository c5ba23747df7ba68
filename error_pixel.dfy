/**
 * The four error-pixel strategies, as the colour each one writes into the
 * destination cell. The raster writes themselves are in module Transformers.
 */
module ErrorPixels {
  import opened ColorMath

  /** How a differing cell is drawn in the difference image. */
  datatype ErrorPixel = Flat | Movement | FlatDifferenceIntensity | MovementDifferenceIntensity

  /**
   * One colour channel of MOVEMENT: `((d2c * (ec / 255)) + ec) / 2` in Java
   * int arithmetic. Both operands are non-negative, so Dafny's division
   * agrees with Java's truncating division here.
   */
  function MovementChannel(d2c: Byte, ec: Byte): Byte {
    assert ec / 255 == (if ec == 255 then 1 else 0);
    (d2c * (ec / 255) + ec) / 2
  }

  /** MOVEMENT: d2's alpha, each colour channel mixed by MovementChannel. */
  function MovementColor(d2: Color, e: Color): (c: Color)
    requires d2.IsBytes() && e.IsBytes()
    ensures c.IsBytes()
  {
    Color(d2.alpha, MovementChannel(d2.red, e.red), MovementChannel(d2.green, e.green),
          MovementChannel(d2.blue, e.blue))
  }

  /** FLAT_DIFFERENCE_INTENSITY: the RGB distance as alpha, the error colour's RGB. */
  function FlatDifferenceColor(distance: Byte, e: Color): Color {
    Color(distance, e.red, e.green, e.blue)
  }

  /**
   * MOVEMENT_DIFFERENCE_INTENSITY: d2's alpha; each colour channel is the
   * floating-point mix `blend(distance, d2c, ec)`, whose formula is not part
   * of this model.
   */
  function MovementDifferenceColor(d2: Color, e: Color, distance: Byte,
                                   blend: (Byte, Byte, Byte) -> Byte): (c: Color)
    requires d2.IsBytes() && e.IsBytes()
    ensures c.IsBytes()
  {
    Color(d2.alpha, blend(distance, d2.red, e.red), blend(distance, d2.green, e.green),
          blend(distance, d2.blue, e.blue))
  }

  /**
   * The colour the strategy `kind` writes for the pixels d1 and d2 and the
   * error colour e (getTransformer().transform).
   */
  function Rendered(kind: ErrorPixel, d1: Color, d2: Color, e: Color, u: ColorFunctions,
                    blend: (Byte, Byte, Byte) -> Byte): (c: Color)
    requires d2.IsBytes() && e.IsBytes()
    ensures c.IsBytes()
  {
    match kind
    case Flat => e
    case Movement => MovementColor(d2, e)
    case FlatDifferenceIntensity => FlatDifferenceColor(u.distance(d1, d2), e)
    case MovementDifferenceIntensity => MovementDifferenceColor(d2, e, u.distance(d1, d2), blend)
  }

  /**
   * The integer-division quirk of MOVEMENT: `ec / 255` is 1 only for
   * ec == 255, so the channel is (d2c + 255) / 2 for a full error channel
   * and ec / 2 (independent of d2) for any other.
   */
  lemma MovementChannelQuirk(d2c: Byte, ec: Byte)
    ensures MovementChannel(d2c, ec) == if ec == 255 then (d2c + 255) / 2 else ec / 2
    ensures ec == 255 ==> 127 <= MovementChannel(d2c, ec)
    ensures ec < 255 ==> MovementChannel(d2c, ec) <= ec
  {
    if ec == 255 {
      assert ec / 255 == 1;
    } else {
      assert ec / 255 == 0;
      assert d2c * (ec / 255) == 0;
    }
  }

  /** A brighter d2 channel never gives a darker MOVEMENT channel. */
  lemma MovementChannelMonotonic(d2c: Byte, d2c': Byte, ec: Byte)
    requires d2c <= d2c'
    ensures MovementChannel(d2c, ec) <= MovementChannel(d2c', ec)
  {
    MovementChannelQuirk(d2c, ec);
    MovementChannelQuirk(d2c', ec);
  }

  /**
   * What each strategy writes, read back from the packed cell: FLAT the
   * error colour; MOVEMENT d2's alpha and the quirk channels;
   * FLAT_DIFFERENCE_INTENSITY the distance as alpha and the error RGB;
   * MOVEMENT_DIFFERENCE_INTENSITY d2's alpha.
   */
  lemma RenderedCell(kind: ErrorPixel, d1: Color, d2: Color, e: Color, u: ColorFunctions,
                     blend: (Byte, Byte, Byte) -> Byte)
    requires d2.IsBytes() && e.IsBytes()
    ensures var c := Unpack(Pack(Rendered(kind, d1, d2, e, u, blend)));
      (kind == Flat ==> c == e) &&
      (kind == Movement ==>
        c.alpha == d2.alpha &&
        c.red == (if e.red == 255 then (d2.red + 255) / 2 else e.red / 2) &&
        c.green == (if e.green == 255 then (d2.green + 255) / 2 else e.green / 2) &&
        c.blue == (if e.blue == 255 then (d2.blue + 255) / 2 else e.blue / 2)) &&
      (kind == FlatDifferenceIntensity ==> c == Color(u.distance(d1, d2), e.red, e.green, e.blue)) &&
      (kind == MovementDifferenceIntensity ==> c.alpha == d2.alpha)
  {
    UnpackPack(Rendered(kind, d1, d2, e, u, blend));
    MovementChannelQuirk(d2.red, e.red);
    MovementChannelQuirk(d2.green, e.green);
    MovementChannelQuirk(d2.blue, e.blue);
  }

  /**
   * FLAT depends on neither pixel, MOVEMENT does not depend on d1; the two
   * distance-based strategies see the pixels only through d2's alpha and
   * channels and their distance.
   */
  lemma RenderedDependencies(kind: ErrorPixel, d1: Color, d1': Color, d2: Color, d2': Color, e: Color,
                             u: ColorFunctions, blend: (Byte, Byte, Byte) -> Byte)
    requires d2.IsBytes() && d2'.IsBytes() && e.IsBytes()
    ensures kind == Flat ==> Rendered(kind, d1, d2, e, u, blend) == Rendered(kind, d1', d2', e, u, blend)
    ensures kind == Movement ==> Rendered(kind, d1, d2, e, u, blend) == Rendered(kind, d1', d2, e, u, blend)
    ensures u.distance(d1, d2) == u.distance(d1', d2) ==>
      Rendered(kind, d1, d2, e, u, blend) == Rendered(kind, d1', d2, e, u, blend)
  {
  }
}
