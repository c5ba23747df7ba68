/**
 * ResembleAnalysisOptions: the settings of an analysis. The tolerance pixel
 * is the caller's own object (its brightness slots receive the thresholds);
 * the error colour is a pixel the options make themselves.
 */
module AnalysisOptions {
  import opened PixelChannels
  import opened ColorMath
  import opened PixelState
  import opened Pixels
  import opened ErrorPixels

  /** The colour of error pixels: ARGB (255, 255, 0, 255), opaque magenta. */
  const ErrorColor: Color := Color(255, 255, 0, 255)

  /** The tolerance slots after the constructor writes the two thresholds. */
  function WithThresholds(s: State, minBrightness: int, maxBrightness: int): (t: State)
    requires Typed(s)
    ensures Typed(t)
  {
    AfterSet(AfterSet(s, MinBrightness, IntNumber(minBrightness)), MaxBrightness, IntNumber(maxBrightness))
  }

  /**
   * The thresholds read back as written, whatever brightness the tolerance's
   * colour has; its base channels and hue slot are kept; and isContrasting
   * against it compares with the max-brightness argument.
   */
  lemma ThresholdsRead(s: State, minBrightness: int, maxBrightness: int, s1: State, s2: State, u: ColorFunctions)
    requires Typed(s) && Typed(s1) && Typed(s2)
    requires Readable(s1, MinBrightness) && Readable(s2, MinBrightness)
    ensures var t := WithThresholds(s, minBrightness, maxBrightness);
      ReadInt(t, MinBrightness, u) == minBrightness && ReadInt(t, MaxBrightness, u) == maxBrightness &&
      Read(t, MinBrightness, u).1 == t && Read(t, MaxBrightness, u).1 == t &&
      ColorOf(t) == ColorOf(s) && t.hue == s.hue && Paired(t)
    ensures Contrasting(s1, s2, WithThresholds(s, minBrightness, maxBrightness), u) <==>
      JavaAbs(Int32(ReadInt(s1, MinBrightness, u) - ReadInt(s2, MinBrightness, u))) > maxBrightness
  {
    var t := WithThresholds(s, minBrightness, maxBrightness);
    assert t.minBrightness == Slot(IntNumber(minBrightness), true);
    assert t.maxBrightness == Slot(IntNumber(maxBrightness), true);
  }

  /**
   * A freshly made error-colour pixel reads, on its first brightness read,
   * getBrightness(255, 0, 255) in both brightness slots.
   */
  lemma ErrorPixelBrightnessRead(s: State, u: ColorFunctions)
    requires WellFormed(s) && ColorOf(s) == ErrorColor
    requires !s.minBrightness.available && !s.maxBrightness.available
    ensures ReadInt(s, MinBrightness, u) == u.brightness(255, 0, 255)
    ensures var t := Read(s, MinBrightness, u).1;
      t.minBrightness == t.maxBrightness == Slot(IntNumber(u.brightness(255, 0, 255)), true)
  {
    assert IntAt(s, Red) == 255 && IntAt(s, Green) == 0 && IntAt(s, Blue) == 255;
  }

  /** tolerance.getMinBrightness().setValue(min); tolerance.getMaxBrightness().setValue(max). */
  method WriteThresholds(tolerance: Pixel, minBrightness: int, maxBrightness: int)
    requires tolerance.Valid()
    modifies tolerance.Cells
    ensures tolerance.Valid() && tolerance.Slots() == WithThresholds(old(tolerance.Slots()), minBrightness, maxBrightness)
  {
    tolerance.SetChannel(MinBrightness, IntNumber(minBrightness));
    tolerance.SetChannel(MaxBrightness, IntNumber(maxBrightness));
  }

  /** The initialiser of the final field errorPixelColor: PixelImpl(255, 255, 0, 255). */
  method NewErrorPixelColor() returns (p: Pixel)
    ensures fresh(p) && fresh(p.Cells) && p.Valid()
    ensures ColorOf(p.Slots()) == ErrorColor && Paired(p.Slots())
    ensures !p.Slots().minBrightness.available && !p.Slots().maxBrightness.available && !p.Slots().hue.available
  {
    p := new Pixel(255, 255, 0, 255);
  }

  class ResembleAnalysisOptions {
    const tolerance: Pixel
    const errorPixelColor: Pixel
    var errorPixel: ErrorPixel
    var ignoreAntialiasing: bool
    var ignoreColors: bool
    var scaleToSameSize: bool
    /** Doubles with no logic attached; reals here. */
    var pixelTransparency: real
    var largeImageThreshold: real

    /**
     * ResembleAnalysisOptions(minBrightness, maxBrightness, tolerance): keeps
     * the caller's tolerance pixel (no copy) and writes the two thresholds
     * into its brightness slots; every other setting takes its default.
     */
    constructor(minBrightness: int, maxBrightness: int, tolerance: Pixel)
      requires tolerance.Valid()
      modifies tolerance.Cells
      ensures this.tolerance == tolerance
      ensures tolerance.Valid() && tolerance.Slots() == WithThresholds(old(tolerance.Slots()), minBrightness, maxBrightness)
      ensures fresh(errorPixelColor) && fresh(errorPixelColor.Cells)
      ensures errorPixelColor.Valid() && ColorOf(errorPixelColor.Slots()) == ErrorColor
      ensures !errorPixelColor.Slots().minBrightness.available && !errorPixelColor.Slots().maxBrightness.available
      ensures !errorPixelColor.Slots().hue.available
      ensures errorPixel == Flat
      ensures !ignoreAntialiasing && !ignoreColors && scaleToSameSize
      ensures pixelTransparency == 1.0 && largeImageThreshold == 1200.0
    {
      WriteThresholds(tolerance, minBrightness, maxBrightness);
      this.tolerance := tolerance;
      var e := NewErrorPixelColor();
      errorPixelColor := e;
      errorPixel := Flat;
      ignoreAntialiasing := false;
      ignoreColors := false;
      scaleToSameSize := true;
      pixelTransparency := 1.0;
      largeImageThreshold := 1200.0;
    }

    method GetErrorPixel() returns (kind: ErrorPixel)
      ensures kind == errorPixel
    {
      kind := errorPixel;
    }

    method SetErrorPixel(kind: ErrorPixel)
      modifies this
      ensures errorPixel == kind
      ensures ignoreAntialiasing == old(ignoreAntialiasing) && ignoreColors == old(ignoreColors)
      ensures scaleToSameSize == old(scaleToSameSize) && pixelTransparency == old(pixelTransparency)
      ensures largeImageThreshold == old(largeImageThreshold)
    {
      errorPixel := kind;
    }

    method IsIgnoreAntialiasing() returns (b: bool)
      ensures b == ignoreAntialiasing
    {
      b := ignoreAntialiasing;
    }

    method SetIgnoreAntialiasing(b: bool)
      modifies this
      ensures ignoreAntialiasing == b
      ensures errorPixel == old(errorPixel) && ignoreColors == old(ignoreColors)
      ensures scaleToSameSize == old(scaleToSameSize) && pixelTransparency == old(pixelTransparency)
      ensures largeImageThreshold == old(largeImageThreshold)
    {
      ignoreAntialiasing := b;
    }

    method IsIgnoreColors() returns (b: bool)
      ensures b == ignoreColors
    {
      b := ignoreColors;
    }

    method SetIgnoreColors(b: bool)
      modifies this
      ensures ignoreColors == b
      ensures errorPixel == old(errorPixel) && ignoreAntialiasing == old(ignoreAntialiasing)
      ensures scaleToSameSize == old(scaleToSameSize) && pixelTransparency == old(pixelTransparency)
      ensures largeImageThreshold == old(largeImageThreshold)
    {
      ignoreColors := b;
    }

    method IsScaleToSameSize() returns (b: bool)
      ensures b == scaleToSameSize
    {
      b := scaleToSameSize;
    }

    method SetScaleToSameSize(b: bool)
      modifies this
      ensures scaleToSameSize == b
      ensures errorPixel == old(errorPixel) && ignoreAntialiasing == old(ignoreAntialiasing)
      ensures ignoreColors == old(ignoreColors) && pixelTransparency == old(pixelTransparency)
      ensures largeImageThreshold == old(largeImageThreshold)
    {
      scaleToSameSize := b;
    }

    /** Documented as lying in [0, 1]; the setter does not check it. */
    method GetPixelTransparency() returns (x: real)
      ensures x == pixelTransparency
    {
      x := pixelTransparency;
    }

    method SetPixelTransparency(x: real)
      modifies this
      ensures pixelTransparency == x
      ensures errorPixel == old(errorPixel) && ignoreAntialiasing == old(ignoreAntialiasing)
      ensures ignoreColors == old(ignoreColors) && scaleToSameSize == old(scaleToSameSize)
      ensures largeImageThreshold == old(largeImageThreshold)
    {
      pixelTransparency := x;
    }

    method GetLargeImageThreshold() returns (x: real)
      ensures x == largeImageThreshold
    {
      x := largeImageThreshold;
    }

    method SetLargeImageThreshold(x: real)
      modifies this
      ensures largeImageThreshold == x
      ensures errorPixel == old(errorPixel) && ignoreAntialiasing == old(ignoreAntialiasing)
      ensures ignoreColors == old(ignoreColors) && scaleToSameSize == old(scaleToSameSize)
      ensures pixelTransparency == old(pixelTransparency)
    {
      largeImageThreshold := x;
    }

    /** The very pixel given to the constructor. */
    method GetTolerance() returns (p: Pixel)
      ensures p == tolerance
    {
      p := tolerance;
    }

    method GetErrorPixelColor() returns (p: Pixel)
      ensures p == errorPixelColor
    {
      p := errorPixelColor;
    }
  }
}
