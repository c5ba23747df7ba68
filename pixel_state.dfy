/**
 * The state of a pixel's seven channel slots as a value, and the effect of
 * every pixel operation on it. The class Pixel (module Pixels) is proved to
 * follow these functions; the lemmas here state what the operations promise.
 */
module PixelState {
  import opened PixelChannels
  import opened ColorMath

  /** The observable state of one slot. */
  datatype Slot = Slot(value: Number, available: bool)

  /** The seven slots of a pixel, one per channel kind. */
  datatype State = State(alpha: Slot, red: Slot, green: Slot, blue: Slot,
                         minBrightness: Slot, maxBrightness: Slot, hue: Slot)
  {
    /** The slot of kind `c` (the array cell at c's ordinal). */
    function At(c: Channel): Slot {
      match c
      case Alpha => alpha
      case Red => red
      case Green => green
      case Blue => blue
      case MinBrightness => minBrightness
      case MaxBrightness => maxBrightness
      case Hue => hue
    }

    /** The state with the slot of kind `c` replaced by `x`. */
    function With(c: Channel, x: Slot): (t: State)
      ensures t.At(c) == x
      ensures forall d | d != c :: t.At(d) == At(d)
    {
      match c
      case Alpha => this.(alpha := x)
      case Red => this.(red := x)
      case Green => this.(green := x)
      case Blue => this.(blue := x)
      case MinBrightness => this.(minBrightness := x)
      case MaxBrightness => this.(maxBrightness := x)
      case Hue => this.(hue := x)
    }
  }

  /** Every slot holds its kind's value type. */
  predicate Typed(s: State) {
    s.alpha.value.IntNumber? && s.red.value.IntNumber? && s.green.value.IntNumber? &&
    s.blue.value.IntNumber? && s.minBrightness.value.IntNumber? &&
    s.maxBrightness.value.IntNumber? && s.hue.value.DoubleNumber?
  }

  /** Alpha, red, green and blue are always set: they have no fill hook. */
  predicate BaseAvailable(s: State) {
    s.alpha.available && s.red.available && s.green.available && s.blue.available
  }

  predicate WellFormed(s: State) {
    Typed(s) && BaseAvailable(s)
  }

  /** The integer stored in a byte-valued slot. */
  function IntAt(s: State, c: Channel): int
    requires Typed(s) && c != Hue
  {
    s.At(c).value.n
  }

  /** The four base channels. */
  function ColorOf(s: State): Color
    requires Typed(s)
  {
    Color(IntAt(s, Alpha), IntAt(s, Red), IntAt(s, Green), IntAt(s, Blue))
  }

  /** The slots of a pixel before its constructor writes the base channels. */
  function InitialSlots(): (s: State)
    ensures Typed(s)
  {
    var zero := Slot(IntNumber(0), false);
    State(zero, zero, zero, zero, zero, zero, Slot(DoubleNumber(0.0), false))
  }

  /** The rgbChanged listener: the three derived slots become unavailable. */
  function Invalidated(s: State): (t: State) {
    s.(minBrightness := s.minBrightness.(available := false),
       maxBrightness := s.maxBrightness.(available := false),
       hue := s.hue.(available := false))
  }

  /** Writing `v` into the slot of `c`, including the listener on red, green and blue. */
  function AfterSet(s: State, c: Channel, v: Number): (t: State)
    requires Typed(s) && HoldsKind(c, v)
    ensures Typed(t)
  {
    var written := s.With(c, Slot(v, true));
    if IsRgb(c) then Invalidated(written) else written
  }

  /** setARGB(a, r, g, b): the four base writes in order. */
  function AfterSetARGB(s: State, col: Color): (t: State)
    requires Typed(s)
    ensures WellFormed(t) && ColorOf(t) == col
    ensures !t.minBrightness.available && !t.maxBrightness.available && !t.hue.available
  {
    var s1 := AfterSet(s, Alpha, IntNumber(col.alpha));
    var s2 := AfterSet(s1, Red, IntNumber(col.red));
    var s3 := AfterSet(s2, Green, IntNumber(col.green));
    AfterSet(s3, Blue, IntNumber(col.blue))
  }

  /** The slots right after the constructor PixelImpl(a, r, g, b). */
  function Constructed(col: Color): (s: State)
    ensures Typed(s)
  {
    AfterSetARGB(InitialSlots(), col)
  }

  /** getBrightness of the current red, green and blue. */
  function BrightnessOf(s: State, u: ColorFunctions): Byte
    requires Typed(s)
  {
    u.brightness(IntAt(s, Red), IntAt(s, Green), IntAt(s, Blue))
  }

  /** getHue of the current red, green and blue. */
  function HueOf(s: State, u: ColorFunctions): real
    requires Typed(s)
  {
    u.hue(IntAt(s, Red), IntAt(s, Green), IntAt(s, Blue))
  }

  /** addBrightnessInfo: both brightness slots receive the one derived value. */
  function WithBrightness(s: State, u: ColorFunctions): (t: State)
    requires Typed(s)
    ensures Typed(t)
  {
    var b := Slot(IntNumber(BrightnessOf(s, u)), true);
    s.(minBrightness := b, maxBrightness := b)
  }

  /** addHueInfo: the hue slot receives the derived hue. */
  function WithHue(s: State, u: ColorFunctions): (t: State)
    requires Typed(s)
    ensures Typed(t)
  {
    s.(hue := Slot(DoubleNumber(HueOf(s, u)), true))
  }

  /** Red, green and blue are set, so the fill hooks can read them. */
  predicate RgbAvailable(s: State) {
    s.red.available && s.green.available && s.blue.available
  }

  /**
   * getValue on the slot of `c` returns without throwing: the slot is
   * available, or it is derived and its fill hook, which reads red, green
   * and blue through getValue, finds them available. An unavailable slot
   * without a hook throws IllegalStateException.
   */
  predicate Readable(s: State, c: Channel) {
    s.At(c).available || (IsDerived(c) && RgbAvailable(s))
  }

  /**
   * getValue on the slot of `c`, with the fill hooks of the derived slots:
   * the value read and the slots afterwards, wherever getValue returns.
   */
  function Read(s: State, c: Channel, u: ColorFunctions): (r: (Number, State))
    requires Typed(s) && Readable(s, c)
    ensures Typed(r.1) && HoldsKind(c, r.0)
    ensures r.1.At(c) == Slot(r.0, true)
  {
    if s.At(c).available then (s.At(c).value, s)
    else
      var t := if c == Hue then WithHue(s, u) else WithBrightness(s, u);
      (t.At(c).value, t)
  }

  /** The integer read from a byte-valued channel. */
  function ReadInt(s: State, c: Channel, u: ColorFunctions): int
    requires Typed(s) && c != Hue && Readable(s, c)
  {
    Read(s, c, u).0.n
  }

  /** The brightness slots after either of them is read. */
  function FillBrightness(s: State, u: ColorFunctions): State
    requires Typed(s)
  {
    if s.minBrightness.available then s else WithBrightness(s, u)
  }

  /** The cache invariant: an available derived slot holds its derivation. */
  predicate Coherent(s: State, u: ColorFunctions)
    requires Typed(s)
  {
    (s.minBrightness.available ==> s.minBrightness.value == IntNumber(BrightnessOf(s, u))) &&
    (s.maxBrightness.available ==> s.maxBrightness.value == IntNumber(BrightnessOf(s, u))) &&
    (s.hue.available ==> s.hue.value == DoubleNumber(HueOf(s, u)))
  }

  /** The two brightness slots are set and invalidated together. */
  predicate Paired(s: State) {
    s.minBrightness.available == s.maxBrightness.available
  }

  // ---------------------------------------------------------------------
  // Comparison predicates

  function Abs(x: int): nat {
    if x < 0 then -x else x
  }

  /**
   * isColorSimilar of one channel against the tolerance pixel's slot of the
   * same kind: the difference is at most the tolerance. The per-channel
   * implementation is not part of this model; this is its assumed meaning.
   */
  predicate ColorSimilar(x: int, y: int, tolerance: int) {
    Abs(x - y) <= tolerance
  }

  /** isRGBSame: exact equality of red, green and blue. */
  predicate RgbSame(s1: State, s2: State)
    requires Typed(s1) && Typed(s2)
  {
    IntAt(s1, Red) == IntAt(s2, Red) &&
    IntAt(s1, Green) == IntAt(s2, Green) &&
    IntAt(s1, Blue) == IntAt(s2, Blue)
  }

  predicate ChannelSimilar(s1: State, s2: State, t: State, c: Channel)
    requires Typed(s1) && Typed(s2) && Typed(t) && c != Hue
  {
    ColorSimilar(IntAt(s1, c), IntAt(s2, c), IntAt(t, c))
  }

  /** isARGBSimilar: red, green, blue and alpha each within tolerance. */
  predicate ArgbSimilar(s1: State, s2: State, t: State)
    requires Typed(s1) && Typed(s2) && Typed(t)
  {
    ChannelSimilar(s1, s2, t, Red) && ChannelSimilar(s1, s2, t, Green) &&
    ChannelSimilar(s1, s2, t, Blue) && ChannelSimilar(s1, s2, t, Alpha)
  }

  /**
   * isPixelBrightnessSimilar: alpha within tolerance, then min-brightness;
   * the min-brightness slots are read only when the alpha test passes.
   */
  predicate BrightnessSimilar(s1: State, s2: State, t: State, u: ColorFunctions)
    requires Typed(s1) && Typed(s2) && Typed(t)
    requires ChannelSimilar(s1, s2, t, Alpha) ==>
      Readable(s1, MinBrightness) && Readable(s2, MinBrightness) && Readable(t, MinBrightness)
  {
    ChannelSimilar(s1, s2, t, Alpha) &&
    ColorSimilar(ReadInt(s1, MinBrightness, u), ReadInt(s2, MinBrightness, u), ReadInt(t, MinBrightness, u))
  }

  /**
   * isContrasting: the min-brightness difference exceeds the tolerance
   * pixel's MAX-brightness slot. The subtraction and Math.abs are int
   * arithmetic, so both wrap around at 32 bits.
   */
  predicate Contrasting(s1: State, s2: State, t: State, u: ColorFunctions)
    requires Typed(s1) && Typed(s2) && Typed(t)
    requires Readable(s1, MinBrightness) && Readable(s2, MinBrightness) && Readable(t, MaxBrightness)
  {
    JavaAbs(Int32(ReadInt(s1, MinBrightness, u) - ReadInt(s2, MinBrightness, u))) > ReadInt(t, MaxBrightness, u)
  }
}
