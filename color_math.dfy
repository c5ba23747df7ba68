/**
 * Colour arithmetic the pixel core relies on: 8-bit channels, the packed
 * 32-bit ARGB cell of a raster, and the colour functions whose formulas live
 * outside the core (brightness, hue, RGB distance).
 */
module ColorMath {

  /** An 8-bit colour channel value. */
  type Byte = n: int | 0 <= n < 256

  /**
   * A packed ARGB cell as stored in a TYPE_INT_ARGB raster: 32 bits, alpha in
   * the most significant byte. Java's signed int is viewed here as its
   * unsigned bit pattern.
   */
  type ARGB = n: int | 0 <= n < 0x1_0000_0000

  /** The four base channels of a colour, as plain integers. */
  datatype Color = Color(alpha: int, red: int, green: int, blue: int) {
    predicate IsBytes() {
      0 <= alpha < 256 && 0 <= red < 256 && 0 <= green < 256 && 0 <= blue < 256
    }
  }

  /** Packs four byte channels into one ARGB cell. */
  function Pack(c: Color): (n: ARGB)
    requires c.IsBytes()
    ensures n / 0x100_0000 == c.alpha
  {
    c.alpha * 0x100_0000 + c.red * 0x1_0000 + c.green * 0x100 + c.blue
  }

  /** Standard 8-bit extraction of the four channels of an ARGB cell. */
  function Unpack(n: ARGB): (c: Color)
    ensures c.IsBytes()
  {
    Color(n / 0x100_0000, n / 0x1_0000 % 0x100, n / 0x100 % 0x100, n % 0x100)
  }

  /** Division by a positive constant undoes `q * d + r` for a remainder below d. */
  lemma DivModOf(q: int, r: int, d: int)
    requires d > 0 && 0 <= r < d
    ensures (q * d + r) / d == q && (q * d + r) % d == r
  {
    var n := q * d + r;
    var k := n / d - q;
    assert d * k == r - n % d;
  }

  /** Unpacking a packed colour gives back its four channels. */
  lemma UnpackPack(c: Color)
    requires c.IsBytes()
    ensures Unpack(Pack(c)) == c
  {
    var hi := c.alpha * 0x100 + c.red;
    var mid := hi * 0x100 + c.green;
    assert Pack(c) == mid * 0x100 + c.blue;
    assert Pack(c) == hi * 0x1_0000 + (c.green * 0x100 + c.blue);
    assert Pack(c) == c.alpha * 0x100_0000 + (c.red * 0x1_0000 + c.green * 0x100 + c.blue);
    DivModOf(mid, c.blue, 0x100);
    DivModOf(hi, c.green * 0x100 + c.blue, 0x1_0000);
    DivModOf(c.alpha, c.red * 0x1_0000 + c.green * 0x100 + c.blue, 0x100_0000);
    DivModOf(hi, c.green, 0x100);
    DivModOf(c.alpha, c.red, 0x100);
  }

  /** Dividing by 0x100 after dividing by d is dividing by d * 0x100. */
  lemma DivThenByte(n: nat, d: int)
    requires d > 0
    ensures n / d / 0x100 == n / (d * 0x100)
  {
    var q, rem := n / (d * 0x100), n % (d * 0x100);
    assert n == (q * 0x100 + rem / d) * d + rem % d;
    DivModOf(q * 0x100 + rem / d, rem % d, d);
    DivModOf(q, rem / d, 0x100);
  }

  /** Packing the unpacked channels of a cell gives back the cell. */
  lemma PackUnpack(n: ARGB)
    ensures Pack(Unpack(n)) == n
  {
    var c := Unpack(n);
    DivThenByte(n, 0x100);
    DivThenByte(n, 0x1_0000);
    assert n == n / 0x100 * 0x100 + c.blue;
    assert n / 0x100 == n / 0x1_0000 * 0x100 + c.green;
    assert n / 0x1_0000 == c.alpha * 0x100 + c.red;
  }

  /** Java's 32-bit int: `x` with two's-complement wrap-around into [-2^31, 2^31). */
  function Int32(x: int): (r: int)
    ensures -0x8000_0000 <= r < 0x8000_0000
  {
    var m := x % 0x1_0000_0000;
    if m < 0x8000_0000 then m else m - 0x1_0000_0000
  }

  /** Math.abs(int): the negation wraps, so Integer.MIN_VALUE stays negative. */
  function JavaAbs(x: int): int {
    if x < 0 then Int32(-x) else x
  }

  /** A value already in the int range is not changed by the wrap-around. */
  lemma Int32InRange(x: int)
    requires -0x8000_0000 <= x < 0x8000_0000
    ensures Int32(x) == x
  {
    if x < 0 {
      DivModOf(-1, x + 0x1_0000_0000, 0x1_0000_0000);
    } else {
      DivModOf(0, x, 0x1_0000_0000);
    }
  }

  /** Away from Integer.MIN_VALUE, Math.abs of an int is its mathematical absolute value. */
  lemma JavaAbsInRange(x: int)
    requires -0x8000_0000 < x < 0x8000_0000
    ensures JavaAbs(Int32(x)) == if x < 0 then -x else x
  {
    Int32InRange(x);
    Int32InRange(-x);
  }

  /**
   * Math.abs(a - b) == Math.abs(b - a) in int arithmetic: the wrapped
   * difference changes sign, except at Integer.MIN_VALUE, which is its own
   * negation.
   */
  lemma JavaAbsDifferenceSymmetric(a: int, b: int)
    ensures JavaAbs(Int32(a - b)) == JavaAbs(Int32(b - a))
  {
    var x := a - b;
    var q, m := x / 0x1_0000_0000, x % 0x1_0000_0000;
    assert x == q * 0x1_0000_0000 + m;
    if m == 0 {
      DivModOf(-q, 0, 0x1_0000_0000);
    } else {
      DivModOf(-q - 1, 0x1_0000_0000 - m, 0x1_0000_0000);
      if m < 0x8000_0000 {
        Int32InRange(m);
      } else if m > 0x8000_0000 {
        Int32InRange(0x1_0000_0000 - m);
      }
    }
  }

  /**
   * The colour functions of the library's ColorUtils, whose formulas are not
   * part of this model: perceived brightness of an RGB triple (assumed to lie
   * in [0, 255]), hue of an RGB triple (a double, here a real), and the RGB
   * distance between two pixels (an int assumed to lie in [0, 255]).
   */
  datatype ColorFunctions = ColorFunctions(
    brightness: (int, int, int) -> Byte,
    hue: (int, int, int) -> real,
    distance: (Color, Color) -> Byte)
}
