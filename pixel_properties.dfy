/**
 * What the pixel operations promise, stated over the slot state of module
 * PixelState: construction, invalidation on writes, lazy brightness and hue,
 * the cache invariant, and the comparison predicates.
 */
module PixelProperties {
  import opened PixelChannels
  import opened ColorMath
  import opened PixelState

  /**
   * PixelImpl(a, r, g, b): the base slots hold a, r, g, b and are available;
   * the derived slots are unavailable, so the cache invariant holds for any
   * colour functions.
   */
  lemma ConstructedSlots(col: Color, u: ColorFunctions)
    ensures WellFormed(Constructed(col)) && ColorOf(Constructed(col)) == col
    ensures var s := Constructed(col);
      !s.minBrightness.available && !s.maxBrightness.available && !s.hue.available
    ensures Coherent(Constructed(col), u) && Paired(Constructed(col))
  {
    var s := Constructed(col);
    assert s.alpha == Slot(IntNumber(col.alpha), true);
    assert s.red == Slot(IntNumber(col.red), true);
    assert s.green == Slot(IntNumber(col.green), true);
  }

  /**
   * Writing red, green or blue leaves the written value available and every
   * derived slot unavailable, whatever its previous state; nothing else
   * changes.
   */
  lemma SetRgbInvalidates(s: State, c: Channel, v: Number)
    requires Typed(s) && HoldsKind(c, v) && IsRgb(c)
    ensures var t := AfterSet(s, c, v);
      t.At(c) == Slot(v, true) &&
      !t.minBrightness.available && !t.maxBrightness.available && !t.hue.available &&
      forall d | d != c :: t.At(d).value == s.At(d).value
  {
  }

  /**
   * Writing alpha (or any channel without a change listener) changes only
   * its own slot: the availability of the derived slots is kept.
   */
  lemma SetWithoutListener(s: State, c: Channel, v: Number)
    requires Typed(s) && HoldsKind(c, v) && !IsRgb(c)
    ensures AfterSet(s, c, v) == s.With(c, Slot(v, true))
    ensures forall d | IsDerived(d) && d != c :: AfterSet(s, c, v).At(d) == s.At(d)
  {
  }

  /** A write to a base channel keeps the cache invariant and the brightness pairing. */
  lemma SetBaseKeepsCoherent(s: State, c: Channel, v: Number, u: ColorFunctions)
    requires Typed(s) && HoldsKind(c, v) && !IsDerived(c)
    requires Coherent(s, u) && Paired(s)
    ensures Coherent(AfterSet(s, c, v), u) && Paired(AfterSet(s, c, v))
  {
    var t := AfterSet(s, c, v);
    if c == Alpha {
      assert IntAt(t, Red) == IntAt(s, Red);
      assert IntAt(t, Green) == IntAt(s, Green);
      assert IntAt(t, Blue) == IntAt(s, Blue);
    }
  }

  /** setARGB makes a pixel well formed and coherent whatever its state before. */
  lemma SetARGBResets(s: State, col: Color, u: ColorFunctions)
    requires Typed(s)
    ensures var t := AfterSetARGB(s, col);
      WellFormed(t) && ColorOf(t) == col && Coherent(t, u) && Paired(t) &&
      !t.minBrightness.available && !t.maxBrightness.available && !t.hue.available
  {
    var t := AfterSetARGB(s, col);
    assert t.alpha == Slot(IntNumber(col.alpha), true);
    assert t.red == Slot(IntNumber(col.red), true);
    assert t.green == Slot(IntNumber(col.green), true);
  }

  /** setARGB(argb) writes the same slots as setARGB of its four unpacked channels. */
  lemma PackedSetARGB(s: State, c: Color)
    requires Typed(s) && c.IsBytes()
    ensures AfterSetARGB(s, Unpack(Pack(c))) == AfterSetARGB(s, c)
  {
    UnpackPack(c);
  }

  /**
   * Reading an unavailable brightness slot computes getBrightness(r, g, b)
   * once and stores it in BOTH brightness slots; everything else is kept.
   */
  lemma ReadBrightnessFills(s: State, c: Channel, u: ColorFunctions)
    requires Typed(s) && (c == MinBrightness || c == MaxBrightness)
    requires !s.At(c).available && RgbAvailable(s)
    ensures var (v, t) := Read(s, c, u);
      v == IntNumber(BrightnessOf(s, u)) &&
      t.minBrightness == t.maxBrightness == Slot(v, true) &&
      t.(minBrightness := s.minBrightness, maxBrightness := s.maxBrightness) == s
  {
  }

  /** A second read returns the same value and changes nothing. */
  lemma ReadTwice(s: State, c: Channel, u: ColorFunctions)
    requires Typed(s) && Readable(s, c)
    ensures var (v, t) := Read(s, c, u);
      Read(t, c, u) == (v, t)
  {
  }

  /**
   * The cache invariant: on a coherent pixel a derived channel reads as its
   * derivation from red, green and blue, and reading keeps the pixel
   * coherent.
   */
  lemma ReadCoherent(s: State, c: Channel, u: ColorFunctions)
    requires Typed(s) && Readable(s, c) && Coherent(s, u)
    ensures Coherent(Read(s, c, u).1, u)
    ensures c == MinBrightness || c == MaxBrightness ==> Read(s, c, u).0 == IntNumber(BrightnessOf(s, u))
    ensures c == Hue ==> Read(s, c, u).0 == DoubleNumber(HueOf(s, u))
  {
    var t := Read(s, c, u).1;
    assert IntAt(t, Red) == IntAt(s, Red);
    assert IntAt(t, Green) == IntAt(s, Green);
    assert IntAt(t, Blue) == IntAt(s, Blue);
  }

  /**
   * With paired brightness slots, reading either brightness slot has the
   * same effect, and after it both read as they did before.
   */
  lemma PairedBrightnessRead(s: State, c: Channel, u: ColorFunctions)
    requires Typed(s) && RgbAvailable(s) && Paired(s) && (c == MinBrightness || c == MaxBrightness)
    ensures var f := FillBrightness(s, u);
      Typed(f) && Paired(f) && f.minBrightness.available &&
      Read(s, c, u) == (f.At(c).value, f) &&
      ReadInt(f, MinBrightness, u) == ReadInt(s, MinBrightness, u) &&
      ReadInt(f, MaxBrightness, u) == ReadInt(s, MaxBrightness, u) &&
      FillBrightness(f, u) == f
  {
  }

  /** Reading any channel keeps the brightness slots paired. */
  lemma ReadKeepsPaired(s: State, c: Channel, u: ColorFunctions)
    requires Typed(s) && Readable(s, c) && Paired(s)
    ensures Paired(Read(s, c, u).1)
    ensures BaseAvailable(s) ==> BaseAvailable(Read(s, c, u).1)
  {
  }

  /** isRGBSame is reflexive and symmetric, and ignores alpha. */
  lemma RgbSameEquivalence(s1: State, s2: State, a: int)
    requires Typed(s1) && Typed(s2)
    ensures RgbSame(s1, s1)
    ensures RgbSame(s1, s2) == RgbSame(s2, s1)
    ensures RgbSame(AfterSet(s1, Alpha, IntNumber(a)), s2) == RgbSame(s1, s2)
    ensures RgbSame(s1, s2) <==> ColorOf(s1).(alpha := 0) == ColorOf(s2).(alpha := 0)
  {
    var t := AfterSet(s1, Alpha, IntNumber(a));
    assert IntAt(t, Red) == IntAt(s1, Red);
    assert IntAt(t, Green) == IntAt(s1, Green);
    assert IntAt(t, Blue) == IntAt(s1, Blue);
  }

  /**
   * isARGBSimilar holds exactly when all four base channels are within the
   * tolerance; a pixel is similar to itself under any tolerance whose base
   * slots are not negative, and similarity is symmetric.
   */
  lemma ArgbSimilarProperties(s1: State, s2: State, t: State)
    requires Typed(s1) && Typed(s2) && Typed(t)
    ensures ArgbSimilar(s1, s2, t) <==>
      forall c | c in [Alpha, Red, Green, Blue] :: Abs(IntAt(s1, c) - IntAt(s2, c)) <= IntAt(t, c)
    ensures IntAt(t, Alpha) >= 0 && IntAt(t, Red) >= 0 && IntAt(t, Green) >= 0 && IntAt(t, Blue) >= 0
      ==> ArgbSimilar(s1, s1, t)
    ensures ArgbSimilar(s1, s2, t) == ArgbSimilar(s2, s1, t)
  {
    assert [Alpha, Red, Green, Blue][0] == Alpha;
    assert [Alpha, Red, Green, Blue][1] == Red;
    assert [Alpha, Red, Green, Blue][2] == Green;
    assert [Alpha, Red, Green, Blue][3] == Blue;
  }

  /**
   * isContrasting is symmetric even with int wrap-around, and on coherent
   * pixels, whose brightnesses are bytes and so cannot overflow, it compares
   * the exact brightness difference against the tolerance's max-brightness
   * slot.
   */
  lemma ContrastingProperties(s1: State, s2: State, t: State, u: ColorFunctions)
    requires Typed(s1) && Typed(s2) && Typed(t)
    requires Readable(s1, MinBrightness) && Readable(s2, MinBrightness) && Readable(t, MaxBrightness)
    ensures Contrasting(s1, s2, t, u) == Contrasting(s2, s1, t, u)
    ensures Coherent(s1, u) && Coherent(s2, u) ==>
      (Contrasting(s1, s2, t, u) <==> Abs(BrightnessOf(s1, u) - BrightnessOf(s2, u)) > ReadInt(t, MaxBrightness, u))
  {
    var v1, v2 := ReadInt(s1, MinBrightness, u), ReadInt(s2, MinBrightness, u);
    JavaAbsDifferenceSymmetric(v1, v2);
    if Coherent(s1, u) && Coherent(s2, u) {
      ReadCoherent(s1, MinBrightness, u);
      ReadCoherent(s2, MinBrightness, u);
      JavaAbsInRange(v1 - v2);
    }
  }

  /**
   * Brightness slots written through get(MIN_BRIGHTNESS).setValue are not
   * bounded to bytes. For two constructed pixels whose min-brightness was set
   * to 2147483647 and -1, the int difference wraps to Integer.MIN_VALUE,
   * Math.abs keeps it negative, and isContrasting answers false even against
   * a tolerance whose max-brightness is 0.
   */
  lemma ContrastingOverflow(col: Color, u: ColorFunctions)
    ensures var s1 := AfterSet(Constructed(col), MinBrightness, IntNumber(0x7fff_ffff));
      var s2 := AfterSet(Constructed(col), MinBrightness, IntNumber(-1));
      var t := AfterSet(Constructed(col), MaxBrightness, IntNumber(0));
      ReadInt(s1, MinBrightness, u) - ReadInt(s2, MinBrightness, u) == 0x8000_0000 &&
      !Contrasting(s1, s2, t, u)
  {
    ConstructedSlots(col, u);
    DivModOf(0, 0x8000_0000, 0x1_0000_0000);
    DivModOf(-1, 0x8000_0000, 0x1_0000_0000);
  }

  /** On coherent pixels, brightness similarity compares the derived brightnesses. */
  lemma BrightnessSimilarCoherent(s1: State, s2: State, t: State, u: ColorFunctions)
    requires Typed(s1) && Typed(s2) && Typed(t) && Coherent(s1, u) && Coherent(s2, u)
    requires Readable(s1, MinBrightness) && Readable(s2, MinBrightness) && Readable(t, MinBrightness)
    ensures BrightnessSimilar(s1, s2, t, u) <==>
      ChannelSimilar(s1, s2, t, Alpha) &&
      Abs(BrightnessOf(s1, u) - BrightnessOf(s2, u)) <= ReadInt(t, MinBrightness, u)
  {
    ReadCoherent(s1, MinBrightness, u);
    ReadCoherent(s2, MinBrightness, u);
  }

  /** Two identical opaque red pixels are similar under tolerance 16 on every channel. */
  lemma IdenticalRedSimilar()
    ensures ArgbSimilar(Constructed(Color(255, 255, 0, 0)), Constructed(Color(255, 255, 0, 0)),
                        Constructed(Color(16, 16, 16, 16)))
  {
    ConstructedSlots(Color(255, 255, 0, 0), ColorFunctions((r, g, b) => 0, (r, g, b) => 0.0, (p, q) => 0));
    ConstructedSlots(Color(16, 16, 16, 16), ColorFunctions((r, g, b) => 0, (r, g, b) => 0.0, (p, q) => 0));
  }

  /** Opaque black and opaque white are not similar under tolerance 16. */
  lemma BlackWhiteNotSimilar()
    ensures !ArgbSimilar(Constructed(Color(255, 0, 0, 0)), Constructed(Color(255, 255, 255, 255)),
                         Constructed(Color(16, 16, 16, 16)))
  {
    var u := ColorFunctions((r, g, b) => 0, (r, g, b) => 0.0, (p, q) => 0);
    ConstructedSlots(Color(255, 0, 0, 0), u);
    ConstructedSlots(Color(255, 255, 255, 255), u);
    ConstructedSlots(Color(16, 16, 16, 16), u);
  }

  /**
   * A grey pixel (128, 128, 128): its min- and max-brightness read equal and
   * a repeated read gives the same value and state.
   */
  lemma GreyBrightnessStable(a: int, u: ColorFunctions)
    ensures var s := Constructed(Color(a, 128, 128, 128));
      var (vMin, t) := Read(s, MinBrightness, u);
      Read(t, MaxBrightness, u) == (vMin, t) &&
      Read(t, MinBrightness, u) == (vMin, t) &&
      vMin == IntNumber(u.brightness(128, 128, 128))
  {
    var s := Constructed(Color(a, 128, 128, 128));
    ConstructedSlots(Color(a, 128, 128, 128), u);
    ReadBrightnessFills(s, MinBrightness, u);
  }
}
