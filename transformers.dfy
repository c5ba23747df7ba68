/**
 * The error-pixel transformers: each writes exactly one cell (x, y) of the
 * destination raster, a TYPE_INT_ARGB image seen as packed ARGB cells.
 */
module Transformers {
  import opened PixelChannels
  import opened ColorMath
  import opened PixelState
  import opened Pixels
  import opened ErrorPixels
  import opened AnalysisOptions

  predicate InRaster(destImg: array2<ARGB>, x: int, y: int) {
    0 <= x < destImg.Length0 && 0 <= y < destImg.Length1
  }

  /** Every cell other than (x, y) holds what it held before. */
  twostate predicate OthersUnchanged(destImg: array2<ARGB>, x: int, y: int)
    reads destImg
  {
    forall i, j | 0 <= i < destImg.Length0 && 0 <= j < destImg.Length1 && (i != x || j != y) ::
      destImg[i, j] == old(destImg[i, j])
  }

  /** A pixel whose four base channels are bytes. */
  ghost predicate BytePixel(p: Pixel)
    reads p.values, p.Cells
  {
    p.Valid() && ColorOf(p.Slots()).IsBytes()
  }

  /** The raster write setARGB(destImg, x, y, a, r, g, b): one packed cell. */
  method SetCell(destImg: array2<ARGB>, x: int, y: int, c: Color)
    requires InRaster(destImg, x, y) && c.IsBytes()
    modifies destImg
    ensures destImg[x, y] == Pack(c) && OthersUnchanged(destImg, x, y)
  {
    destImg[x, y] := Pack(c);
  }

  /** FLAT: the error colour, whatever d1 and d2 are. */
  method TransformFlat(destImg: array2<ARGB>, x: int, y: int, d1: Pixel, d2: Pixel,
                       options: ResembleAnalysisOptions)
    requires InRaster(destImg, x, y) && BytePixel(options.errorPixelColor)
    modifies destImg
    ensures destImg[x, y] == Pack(ColorOf(options.errorPixelColor.Slots()))
    ensures OthersUnchanged(destImg, x, y)
  {
    var e := options.errorPixelColor;
    SetCell(destImg, x, y, e.BaseColor());
  }

  /** MOVEMENT: d2's alpha, each colour channel mixed with the error colour. */
  method TransformMovement(destImg: array2<ARGB>, x: int, y: int, d1: Pixel, d2: Pixel,
                           options: ResembleAnalysisOptions)
    requires InRaster(destImg, x, y) && BytePixel(d2) && BytePixel(options.errorPixelColor)
    modifies destImg
    ensures destImg[x, y] == Pack(MovementColor(ColorOf(d2.Slots()), ColorOf(options.errorPixelColor.Slots())))
    ensures OthersUnchanged(destImg, x, y)
  {
    var e := options.errorPixelColor;
    SetCell(destImg, x, y,
      Color(d2.BaseValue(Alpha),
            MovementChannel(d2.BaseValue(Red), e.BaseValue(Red)),
            MovementChannel(d2.BaseValue(Green), e.BaseValue(Green)),
            MovementChannel(d2.BaseValue(Blue), e.BaseValue(Blue))));
  }

  /** FLAT_DIFFERENCE_INTENSITY: colorsDistanceRGB(d1, d2) as alpha, the error RGB. */
  method TransformFlatDifferenceIntensity(destImg: array2<ARGB>, x: int, y: int, d1: Pixel, d2: Pixel,
                                          options: ResembleAnalysisOptions, u: ColorFunctions)
    requires InRaster(destImg, x, y) && d1.Valid() && d2.Valid() && BytePixel(options.errorPixelColor)
    modifies destImg
    ensures destImg[x, y] ==
      Pack(FlatDifferenceColor(u.distance(ColorOf(d1.Slots()), ColorOf(d2.Slots())),
                               ColorOf(options.errorPixelColor.Slots())))
    ensures OthersUnchanged(destImg, x, y)
  {
    var e := options.errorPixelColor;
    var distance := u.distance(d1.BaseColor(), d2.BaseColor());
    SetCell(destImg, x, y, Color(distance, e.BaseValue(Red), e.BaseValue(Green), e.BaseValue(Blue)));
  }

  /**
   * MOVEMENT_DIFFERENCE_INTENSITY: d2's alpha; the colour channels are the
   * floating-point mix `blend` of the distance, d2's and the error channel.
   */
  method TransformMovementDifferenceIntensity(destImg: array2<ARGB>, x: int, y: int, d1: Pixel, d2: Pixel,
                                              options: ResembleAnalysisOptions, u: ColorFunctions,
                                              blend: (Byte, Byte, Byte) -> Byte)
    requires InRaster(destImg, x, y) && d1.Valid() && BytePixel(d2) && BytePixel(options.errorPixelColor)
    modifies destImg
    ensures destImg[x, y] ==
      Pack(MovementDifferenceColor(ColorOf(d2.Slots()), ColorOf(options.errorPixelColor.Slots()),
                                   u.distance(ColorOf(d1.Slots()), ColorOf(d2.Slots())), blend))
    ensures OthersUnchanged(destImg, x, y)
  {
    var e := options.errorPixelColor;
    var c2 := d2.BaseColor();
    var ec := e.BaseColor();
    var distance := u.distance(d1.BaseColor(), c2);
    SetCell(destImg, x, y,
      Color(c2.alpha, blend(distance, c2.red, ec.red), blend(distance, c2.green, ec.green),
            blend(distance, c2.blue, ec.blue)));
  }

  /** kind.getTransformer().transform(...): each constant runs its own transformer. */
  method Transform(kind: ErrorPixel, destImg: array2<ARGB>, x: int, y: int, d1: Pixel, d2: Pixel,
                   options: ResembleAnalysisOptions, u: ColorFunctions, blend: (Byte, Byte, Byte) -> Byte)
    requires InRaster(destImg, x, y) && d1.Valid() && BytePixel(d2) && BytePixel(options.errorPixelColor)
    modifies destImg
    ensures destImg[x, y] ==
      Pack(Rendered(kind, ColorOf(d1.Slots()), ColorOf(d2.Slots()), ColorOf(options.errorPixelColor.Slots()),
                    u, blend))
    ensures OthersUnchanged(destImg, x, y)
  {
    match kind
    case Flat =>
      TransformFlat(destImg, x, y, d1, d2, options);
    case Movement =>
      TransformMovement(destImg, x, y, d1, d2, options);
    case FlatDifferenceIntensity =>
      TransformFlatDifferenceIntensity(destImg, x, y, d1, d2, options, u);
    case MovementDifferenceIntensity =>
      TransformMovementDifferenceIntensity(destImg, x, y, d1, d2, options, u, blend);
  }
}
