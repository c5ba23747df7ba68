# resemble-java pixel colour model in Dafny

This project models the pixel colour core of resemble-java, an image
comparison library:

- **Channels.** A channel slot holds a typed value and an `available` flag.
  There are seven channel kinds: ALPHA, RED, GREEN, BLUE, MIN_BRIGHTNESS,
  MAX_BRIGHTNESS and HUE.
- **Pixels.** `PixelImpl` keeps one slot per kind in an array. Three of the
  slots are derived from red, green and blue and are filled lazily:
  - writing red, green or blue makes the derived slots unavailable;
  - reading an unavailable brightness slot computes one brightness and stores
    it in both brightness slots;
  - reading an unavailable hue slot computes the hue.
- **Comparisons.** A pixel is compared with another under a tolerance pixel:
  `isRGBSame`, `isARGBSimilar`, `isPixelBrightnessSimilar` and `isContrasting`.
- **Error strategies.** Four strategies each write one cell of a difference
  image: FLAT, MOVEMENT, FLAT_DIFFERENCE_INTENSITY and
  MOVEMENT_DIFFERENCE_INTENSITY.
- **Options.** `ResembleAnalysisOptions` is the options object that supplies
  the tolerance pixel, the error colour and the strategy. Its only constructor
  takes (minBrightness, maxBrightness, tolerance). The error colour is ARGB
  (255, 255, 0, 255), opaque magenta.

Modules, one per file:

| file | module | what it holds |
|---|---|---|
| `color_math.dfy` | `ColorMath` | Bytes, packed 32-bit ARGB cells, `Pack`/`Unpack` and their round trips. The colour functions defined outside the core become a `ColorFunctions` value passed as a parameter. |
| `pixel_channel.dfy` | `PixelChannels` | The `Channel` kinds, the `Number` value type and the class `PixelChannel`. |
| `pixel_state.dfy` | `PixelState` | The state of a pixel's seven slots as a value (`State`). Pure functions give the effect of every pixel operation (`AfterSet`, `AfterSetARGB`, `Read`, …) and define the comparison predicates. |
| `pixel_properties.dfy` | `PixelProperties` | Lemmas about those functions: invalidation, lazy filling, the cache invariant `Coherent`, and the comparisons. |
| `pixel.dfy` | `Pixels` | The class `Pixel`, which holds an array of seven `PixelChannel` objects. Every method that changes or reads slot state is proved against the functions of `PixelState`. |
| `error_pixel.dfy` | `ErrorPixels` | The strategy enum and the colour each strategy writes. |
| `options.dfy` | `AnalysisOptions` | The class `ResembleAnalysisOptions`. |
| `transformers.dfy` | `Transformers` | The four single-cell raster writes and the dispatch on the strategy. |

## Model

| member | source | states |
|---|---|---|
| ColorMath.Pack | src/main/java/radomik/com/github/resemble/analysis/ErrorPixel.java:15-20 | The packed cell keeps alpha in its top byte. |
| ColorMath.Unpack | src/main/java/radomik/com/github/resemble/pixel/impl/PixelImpl.java:126-129 | The four channels extracted from a cell are bytes. |
| ColorMath.UnpackPack | src/main/java/radomik/com/github/resemble/pixel/impl/PixelImpl.java:126-129 | Unpacking a packed byte colour gives back its four channels. |
| ColorMath.PackUnpack | src/main/java/radomik/com/github/resemble/pixel/impl/PixelImpl.java:126-129 | Packing the unpacked channels of any cell gives back the cell. |
| ColorMath.Int32 | src/main/java/radomik/com/github/resemble/pixel/impl/PixelImpl.java:82 | Java's `int` subtraction result: the value reduced with two's-complement wrap-around into [-2^31, 2^31). |
| ColorMath.JavaAbs | src/main/java/radomik/com/github/resemble/pixel/impl/PixelImpl.java:82 | `Math.abs(int)`: the negation wraps, so `Integer.MIN_VALUE` stays negative. |
| ColorMath.JavaAbsDifferenceSymmetric | src/main/java/radomik/com/github/resemble/pixel/impl/PixelImpl.java:82 | `Math.abs(a - b)` equals `Math.abs(b - a)` in 32-bit int arithmetic, wrap-around included. |
| ColorMath.JavaAbsInRange | src/main/java/radomik/com/github/resemble/pixel/impl/PixelImpl.java:82 | Away from `Integer.MIN_VALUE`, the wrapped `Math.abs` is the true absolute value. |
| PixelChannels.Ordinal | src/main/java/radomik/com/github/resemble/pixel/PixelChannel.java:5-7 | The ordinal of a kind is its position in the declared order. |
| PixelChannels.ChannelsDistinct | src/main/java/radomik/com/github/resemble/pixel/PixelChannel.java:5-7 | There are exactly seven kinds. They are pairwise distinct and every kind is listed. |
| PixelChannels.PixelChannel.constructor | src/main/java/radomik/com/github/resemble/pixel/impl/PixelImpl.java:30-36 | A new slot has the given kind and starts unavailable. |
| PixelChannels.PixelChannel.GetValue | src/main/java/radomik/com/github/resemble/pixel/PixelChannel.java:13-21 | A slot with no fill hook reads as its value exactly when it is available. Otherwise it reads as IllegalState. |
| PixelChannels.PixelChannel.SetValue | src/main/java/radomik/com/github/resemble/pixel/PixelChannel.java:23-30 | Stores the value and marks the slot available. |
| PixelChannels.PixelChannel.SetAvailable | src/main/java/radomik/com/github/resemble/pixel/PixelChannel.java:34-39 | Sets the flag and keeps the value. |
| PixelChannels.PixelChannel.IsAvailable | src/main/java/radomik/com/github/resemble/pixel/PixelChannel.java:41-46 | Returns the flag, so after `SetAvailable(b)` it returns b. |
| PixelChannels.PixelChannel.GetChannel | src/main/java/radomik/com/github/resemble/pixel/PixelChannel.java:32 | Returns the kind. The kind is a `const` fixed at construction. |
| PixelChannels.SetThenGet | src/main/java/radomik/com/github/resemble/pixel/PixelChannel.java:23-30 | A write followed by a read returns `Ok(v)`. |
| PixelState.AfterSetARGB | src/main/java/radomik/com/github/resemble/pixel/impl/PixelImpl.java:132-138 | After the four base writes, the base channels are the given colour and available, and all three derived slots are unavailable, whatever the state before. |
| PixelState.Readable | src/main/java/radomik/com/github/resemble/pixel/impl/PixelImpl.java:145-154 | `getValue` returns without throwing: the slot is available, or it is derived and its fill hook finds red, green and blue available, because the hook reads them through `getValue`. |
| PixelState.Read | src/main/java/radomik/com/github/resemble/pixel/PixelChannel.java:13-21 | Defined where `getValue` returns (`Readable`). An unavailable derived slot is filled by its hook. Afterwards the slot read is available and holds the value read. The value has the kind's type. |
| PixelState.Invalidated | src/main/java/radomik/com/github/resemble/pixel/impl/PixelImpl.java:16-20 | The `rgbChanged` listener: the three derived slots become unavailable and keep their values. |
| PixelState.AfterSet | src/main/java/radomik/com/github/resemble/pixel/PixelChannel.java:23-30 | `get(c).setValue(v)`: the slot holds v and is available. For red, green and blue the `rgbChanged` listener follows. The result is typed. |
| PixelState.WithBrightness | src/main/java/radomik/com/github/resemble/pixel/impl/PixelImpl.java:145-149 | `addBrightnessInfo`: one brightness of the current red, green and blue is stored in both brightness slots. |
| PixelState.WithHue | src/main/java/radomik/com/github/resemble/pixel/impl/PixelImpl.java:151-154 | `addHueInfo`: the hue of the current red, green and blue is stored in the hue slot. |
| PixelState.RgbSame | src/main/java/radomik/com/github/resemble/pixel/impl/PixelImpl.java:62-67 | `isRGBSame`: red, green and blue are equal. |
| PixelState.ArgbSimilar | src/main/java/radomik/com/github/resemble/pixel/impl/PixelImpl.java:69-75 | `isARGBSimilar`: red, green, blue and alpha are each within the tolerance's slot of the same kind. |
| PixelState.BrightnessSimilar | src/main/java/radomik/com/github/resemble/pixel/impl/PixelImpl.java:54-60 | `isPixelBrightnessSimilar`: alpha within tolerance; only then min-brightness of both pixels within the tolerance's min-brightness. |
| PixelState.Contrasting | src/main/java/radomik/com/github/resemble/pixel/impl/PixelImpl.java:77-83 | `isContrasting`: `Math.abs` of the int difference of the two min-brightness reads exceeds the tolerance's max-brightness. |
| PixelProperties.ConstructedSlots | src/main/java/radomik/com/github/resemble/pixel/impl/PixelImpl.java:28-42 | `PixelImpl(a,r,g,b)` holds a, r, g and b. Min-brightness, max-brightness and hue are unavailable. The cache invariant holds and the brightness slots are paired. |
| PixelProperties.SetRgbInvalidates | src/main/java/radomik/com/github/resemble/pixel/impl/PixelImpl.java:16-20 | Writing red, green or blue stores the value and makes all three derived slots unavailable, whatever they were. No other value changes. |
| PixelProperties.SetWithoutListener | src/main/java/radomik/com/github/resemble/pixel/impl/PixelImpl.java:30 | Writing alpha (or any kind that has no change listener) changes only its own slot. Derived availability is kept. |
| PixelProperties.SetBaseKeepsCoherent | src/main/java/radomik/com/github/resemble/pixel/impl/PixelImpl.java:16-20 | A write to a base channel keeps the cache invariant and the pairing of the brightness slots. |
| PixelProperties.SetARGBResets | src/main/java/radomik/com/github/resemble/pixel/impl/PixelImpl.java:132-138 | `setARGB` leaves any pixel well formed and coherent, holding the given colour, with its derived slots unavailable. |
| PixelProperties.PackedSetARGB | src/main/java/radomik/com/github/resemble/pixel/impl/PixelImpl.java:126-138 | `setARGB(argb)` has the same effect as `setARGB` of the four channels of the packed colour. |
| PixelProperties.ReadBrightnessFills | src/main/java/radomik/com/github/resemble/pixel/impl/PixelImpl.java:145-149 | Reading an unavailable brightness slot yields `getBrightness(r,g,b)` and stores that one value, available, in both brightness slots. All other slots are kept. |
| PixelProperties.ReadTwice | src/main/java/radomik/com/github/resemble/pixel/impl/PixelImpl.java:21-26 | A second read of the same channel returns the same value and changes nothing. |
| PixelProperties.ReadCoherent | src/main/java/radomik/com/github/resemble/pixel/impl/PixelImpl.java:145-154 | On a coherent pixel, a derived channel reads as its derivation from RGB, and reading keeps the pixel coherent. |
| PixelProperties.PairedBrightnessRead | src/main/java/radomik/com/github/resemble/pixel/impl/PixelImpl.java:21-23 | With paired brightness slots, reading either one has the same effect. Afterwards both read as they did before. |
| PixelProperties.ReadKeepsPaired | src/main/java/radomik/com/github/resemble/pixel/impl/PixelImpl.java:145-149 | Any read keeps the brightness slots paired and the base slots available. |
| PixelProperties.RgbSameEquivalence | src/main/java/radomik/com/github/resemble/pixel/impl/PixelImpl.java:62-67 | `isRGBSame` is reflexive, symmetric and ignores alpha. It holds exactly when the colours agree on red, green and blue. |
| PixelProperties.ArgbSimilarProperties | src/main/java/radomik/com/github/resemble/pixel/impl/PixelImpl.java:69-75 | `isARGBSimilar` holds exactly when all four channels are within the tolerance. It is symmetric, and reflexive for a non-negative tolerance. |
| PixelProperties.ContrastingProperties | src/main/java/radomik/com/github/resemble/pixel/impl/PixelImpl.java:77-83 | `isContrasting` is symmetric in this and d2, even with int wrap-around. On coherent pixels the brightnesses are bytes, so nothing wraps, and it compares the exact brightness difference with the tolerance's max-brightness slot. |
| PixelProperties.ContrastingOverflow | src/main/java/radomik/com/github/resemble/pixel/impl/PixelImpl.java:77-83 | Two constructed pixels get min-brightness 2147483647 and -1 through `setValue`. Their int difference wraps to `Integer.MIN_VALUE`. `Math.abs` keeps it negative, so `isContrasting` is false even against tolerance 0. |
| PixelProperties.BrightnessSimilarCoherent | src/main/java/radomik/com/github/resemble/pixel/impl/PixelImpl.java:54-60 | On coherent pixels, brightness similarity is "alpha similar and brightness difference within the tolerance's min-brightness". |
| PixelProperties.IdenticalRedSimilar | src/main/java/radomik/com/github/resemble/pixel/impl/PixelImpl.java:69-75 | Two opaque red pixels are ARGB-similar under tolerance (16,16,16,16). |
| PixelProperties.BlackWhiteNotSimilar | src/main/java/radomik/com/github/resemble/pixel/impl/PixelImpl.java:69-75 | Opaque black and opaque white are not ARGB-similar under tolerance (16,16,16,16). |
| PixelProperties.GreyBrightnessStable | src/main/java/radomik/com/github/resemble/pixel/impl/PixelImpl.java:21-23 | For a grey pixel, min-brightness and max-brightness read as the same value, and repeated reads are stable. |
| Pixels.NewSlots | src/main/java/radomik/com/github/resemble/pixel/impl/PixelImpl.java:29-36 | Seven fresh slots. Slot i has the kind at ordinal i and starts unavailable. |
| Pixels.Pixel.constructor | src/main/java/radomik/com/github/resemble/pixel/impl/PixelImpl.java:28-38 | The slots are `Constructed(a,r,g,b)`, which is the initial slots after `setARGB(a,r,g,b)`. |
| Pixels.Pixel.Default | src/main/java/radomik/com/github/resemble/pixel/impl/PixelImpl.java:40-42 | The pixel (0,0,0,0). |
| Pixels.Pixel.FromImage | src/main/java/radomik/com/github/resemble/pixel/impl/PixelImpl.java:44-47 | The default pixel followed by `setARGB` of the unpacked raster cell. |
| Pixels.Pixel.GetSlot | src/main/java/radomik/com/github/resemble/pixel/impl/PixelImpl.java:120-123 | `get(c)` is the slot at c's ordinal. It is of kind c, and no other kind shares it. |
| Pixels.Pixel.InvalidateDerived | src/main/java/radomik/com/github/resemble/pixel/impl/PixelImpl.java:16-20 | The rgbChanged listener: the three derived slots become unavailable. |
| Pixels.Pixel.SetChannel | src/main/java/radomik/com/github/resemble/pixel/impl/PixelImpl.java:134-137 | `get(c).setValue(v)` together with its change listener. The new slots are `AfterSet(old, c, v)`. |
| Pixels.Pixel.SetARGB | src/main/java/radomik/com/github/resemble/pixel/impl/PixelImpl.java:132-138 | The four writes in order. The new slots are `AfterSetARGB(old, colour)`. |
| Pixels.Pixel.SetPackedARGB | src/main/java/radomik/com/github/resemble/pixel/impl/PixelImpl.java:126-129 | `setARGB(argb)` is `setARGB` of the unpacked channels. |
| Pixels.Pixel.SetARGBFromImage | src/main/java/radomik/com/github/resemble/pixel/impl/PixelImpl.java:141-143 | `setARGB(image,x,y)` is `setARGB` of the cell at (x,y). |
| Pixels.Pixel.BaseValue | src/main/java/radomik/com/github/resemble/pixel/impl/PixelImpl.java:85-103 | A base channel's value is the one held in its slot, and reading it changes nothing. |
| Pixels.Pixel.BaseColor | src/main/java/radomik/com/github/resemble/pixel/impl/PixelImpl.java:85-103 | The pixel's colour as its four base channels. |
| Pixels.Pixel.AddBrightnessInfo | src/main/java/radomik/com/github/resemble/pixel/impl/PixelImpl.java:145-149 | Both brightness slots receive the one brightness of the current RGB. |
| Pixels.Pixel.AddHueInfo | src/main/java/radomik/com/github/resemble/pixel/impl/PixelImpl.java:151-154 | The hue slot receives the hue of the current RGB. |
| Pixels.Pixel.Get | src/main/java/radomik/com/github/resemble/pixel/impl/PixelImpl.java:21-26 | `get(c).getValue()` with the fill hooks. It never fails on a valid pixel, and it returns and leaves exactly what `Read` specifies. |
| Pixels.Pixel.IsRGBSame | src/main/java/radomik/com/github/resemble/pixel/impl/PixelImpl.java:62-67 | Equals `RgbSame` of the two pixels' slots. |
| Pixels.Pixel.IsARGBSimilar | src/main/java/radomik/com/github/resemble/pixel/impl/PixelImpl.java:69-75 | Equals `ArgbSimilar`: red, green, blue and alpha each within tolerance, checked in that order. |
| Pixels.Pixel.IsPixelBrightnessSimilar | src/main/java/radomik/com/github/resemble/pixel/impl/PixelImpl.java:54-60 | Equals `BrightnessSimilar` of the slots before the call. When alpha is not similar, no slot changes. Otherwise each pixel is left as its min-brightness read leaves it. |
| Pixels.Pixel.IsContrasting | src/main/java/radomik/com/github/resemble/pixel/impl/PixelImpl.java:77-83 | Equals `Contrasting` of the slots before the call: the int difference of this and d2's min-brightness, wrapped to 32 bits and passed through `Math.abs`, against the tolerance's max-brightness. Afterwards this and d2 have min-brightness available. |
| ErrorPixels.MovementChannel | src/main/java/radomik/com/github/resemble/analysis/ErrorPixel.java:17-19 | One MOVEMENT colour channel: `(d2c * (ec / 255) + ec) / 2` in int arithmetic. |
| ErrorPixels.FlatDifferenceColor | src/main/java/radomik/com/github/resemble/analysis/ErrorPixel.java:22-26 | FLAT_DIFFERENCE_INTENSITY: the RGB distance as alpha, and the error colour's red, green and blue. |
| ErrorPixels.MovementColor | src/main/java/radomik/com/github/resemble/analysis/ErrorPixel.java:13-21 | The MOVEMENT colour of byte inputs is a byte colour. |
| ErrorPixels.MovementDifferenceColor | src/main/java/radomik/com/github/resemble/analysis/ErrorPixel.java:27-37 | The MOVEMENT_DIFFERENCE_INTENSITY colour of byte inputs is a byte colour. |
| ErrorPixels.Rendered | src/main/java/radomik/com/github/resemble/analysis/ErrorPixel.java:38-46 | Every strategy writes a byte colour. |
| ErrorPixels.MovementChannelQuirk | src/main/java/radomik/com/github/resemble/analysis/ErrorPixel.java:13-21 | Because `e/255` is integer division, a MOVEMENT channel is `(d2c+255)/2` when the error channel is 255 and `ec/2` otherwise. |
| ErrorPixels.MovementChannelMonotonic | src/main/java/radomik/com/github/resemble/analysis/ErrorPixel.java:13-21 | A MOVEMENT channel never decreases when d2's channel increases. |
| ErrorPixels.RenderedCell | src/main/java/radomik/com/github/resemble/analysis/ErrorPixel.java:10-37 | Each strategy's cell, read back, gives: FLAT the error colour; MOVEMENT d2's alpha and the quirk channels; FLAT_DIFFERENCE_INTENSITY the distance as alpha and the error RGB; MOVEMENT_DIFFERENCE_INTENSITY d2's alpha. |
| ErrorPixels.RenderedDependencies | src/main/java/radomik/com/github/resemble/analysis/ErrorPixel.java:10-37 | FLAT ignores d1 and d2, and MOVEMENT ignores d1. The other two see d1 only through the distance. |
| AnalysisOptions.WithThresholds | src/main/java/radomik/com/github/resemble/analysis/ResembleAnalysisOptions.java:18-19 | The tolerance slots after the constructor writes min-brightness and then max-brightness. The result is typed. |
| AnalysisOptions.ThresholdsRead | src/main/java/radomik/com/github/resemble/analysis/ResembleAnalysisOptions.java:16-20 | After the constructor's writes, the tolerance reads min and max brightness as the arguments. Its colour and hue are kept. `isContrasting` against it uses the max argument. |
| AnalysisOptions.WriteThresholds | src/main/java/radomik/com/github/resemble/analysis/ResembleAnalysisOptions.java:18-19 | The two brightness writes into the caller's tolerance pixel. |
| AnalysisOptions.ErrorPixelBrightnessRead | src/main/java/radomik/com/github/resemble/analysis/ResembleAnalysisOptions.java:8 | The fresh error-colour pixel's first min-brightness read returns `getBrightness(255, 0, 255)` and stores it in both brightness slots. |
| AnalysisOptions.NewErrorPixelColor | src/main/java/radomik/com/github/resemble/analysis/ResembleAnalysisOptions.java:8 | A fresh pixel of colour (255,255,0,255) whose min-brightness, max-brightness and hue slots are unavailable, so the first read of each fills it from (255, 0, 255). |
| AnalysisOptions.ResembleAnalysisOptions.constructor | src/main/java/radomik/com/github/resemble/analysis/ResembleAnalysisOptions.java:7-20 | The tolerance is the caller's own pixel, holding the thresholds. The error colour is a fresh pixel (255,255,0,255) with its three derived slots unavailable. The strategy is FLAT, the flags are false, false and true, and the doubles are 1.0 and 1200.0. |
| AnalysisOptions.ResembleAnalysisOptions.GetErrorPixel | src/main/java/radomik/com/github/resemble/analysis/ResembleAnalysisOptions.java:34-36 | Returns the current strategy. |
| AnalysisOptions.ResembleAnalysisOptions.SetErrorPixel | src/main/java/radomik/com/github/resemble/analysis/ResembleAnalysisOptions.java:38-40 | Sets the strategy and no other setting. |
| AnalysisOptions.ResembleAnalysisOptions.IsIgnoreAntialiasing | src/main/java/radomik/com/github/resemble/analysis/ResembleAnalysisOptions.java:42-44 | Returns the flag. |
| AnalysisOptions.ResembleAnalysisOptions.SetIgnoreAntialiasing | src/main/java/radomik/com/github/resemble/analysis/ResembleAnalysisOptions.java:46-48 | Sets the flag and no other setting. |
| AnalysisOptions.ResembleAnalysisOptions.IsIgnoreColors | src/main/java/radomik/com/github/resemble/analysis/ResembleAnalysisOptions.java:50-52 | Returns the flag. |
| AnalysisOptions.ResembleAnalysisOptions.SetIgnoreColors | src/main/java/radomik/com/github/resemble/analysis/ResembleAnalysisOptions.java:54-56 | Sets the flag and no other setting. |
| AnalysisOptions.ResembleAnalysisOptions.IsScaleToSameSize | src/main/java/radomik/com/github/resemble/analysis/ResembleAnalysisOptions.java:58-60 | Returns the flag. |
| AnalysisOptions.ResembleAnalysisOptions.SetScaleToSameSize | src/main/java/radomik/com/github/resemble/analysis/ResembleAnalysisOptions.java:62-64 | Sets the flag and no other setting. |
| AnalysisOptions.ResembleAnalysisOptions.GetPixelTransparency | src/main/java/radomik/com/github/resemble/analysis/ResembleAnalysisOptions.java:71-73 | Returns the value. |
| AnalysisOptions.ResembleAnalysisOptions.SetPixelTransparency | src/main/java/radomik/com/github/resemble/analysis/ResembleAnalysisOptions.java:80-82 | Sets the value, unchecked, and no other setting. |
| AnalysisOptions.ResembleAnalysisOptions.GetLargeImageThreshold | src/main/java/radomik/com/github/resemble/analysis/ResembleAnalysisOptions.java:84-86 | Returns the value. |
| AnalysisOptions.ResembleAnalysisOptions.SetLargeImageThreshold | src/main/java/radomik/com/github/resemble/analysis/ResembleAnalysisOptions.java:88-90 | Sets the value and no other setting. |
| AnalysisOptions.ResembleAnalysisOptions.GetTolerance | src/main/java/radomik/com/github/resemble/analysis/ResembleAnalysisOptions.java:92-94 | Returns the very pixel given to the constructor, not a copy. |
| AnalysisOptions.ResembleAnalysisOptions.GetErrorPixelColor | src/main/java/radomik/com/github/resemble/analysis/ResembleAnalysisOptions.java:101-103 | Returns the final error-colour pixel. |
| Transformers.SetCell | src/main/java/radomik/com/github/resemble/analysis/ErrorPixel.java:15-20 | The raster write sets cell (x,y) to the packed colour and changes no other cell. |
| Transformers.TransformFlat | src/main/java/radomik/com/github/resemble/analysis/ErrorPixel.java:10-12 | Cell (x,y) becomes the error colour. Nothing else changes. |
| Transformers.TransformMovement | src/main/java/radomik/com/github/resemble/analysis/ErrorPixel.java:13-21 | Cell (x,y) becomes `MovementColor(d2, e)`. Nothing else changes. |
| Transformers.TransformFlatDifferenceIntensity | src/main/java/radomik/com/github/resemble/analysis/ErrorPixel.java:22-26 | Cell (x,y) becomes `(distance(d1,d2), e.red, e.green, e.blue)`. Nothing else changes. |
| Transformers.TransformMovementDifferenceIntensity | src/main/java/radomik/com/github/resemble/analysis/ErrorPixel.java:27-37 | Cell (x,y) becomes d2's alpha with the blended colour channels. Nothing else changes. |
| Transformers.Transform | src/main/java/radomik/com/github/resemble/analysis/ErrorPixel.java:38-46 | Each constant runs its own transformer, so cell (x,y) becomes `Rendered(kind, …)`. Nothing else changes. |

## Left out

- `ColorUtils` is not part of this model. Its `getBrightness`, `getHue` and `colorsDistanceRGB` are fields of a `ColorFunctions` value. Brightness and distance are assumed to lie in [0, 255]. `colorsDistanceRGB(Pixel, Pixel)` is also assumed to depend only on the four base channels and to fill no slot, because `distance` takes two colours. The raster accessors `getARGB` and `setARGB` are modelled as standard 8-bit packing with alpha in the top byte. A TYPE_INT_ARGB raster is an `array2` of unsigned 32-bit cells.
- `BytePixelChannelImpl` and `HuePixelChannelImpl` are not part of this model. Their `isColorSimilar` is assumed to mean `|a − b| <= tolerance[same kind]` (`PixelState.ColorSimilar`). Their `isSame` is assumed to be equality. The RGB change listener is assumed to fire on every `setValue`.
- Listener objects (`setChangedListener`, `setNeededListener`) are replaced by the fixed dependency from RGB to brightness and hue. `PixelChannel.GetValue` is a slot with no hook. The hooks run in `Pixel.Get`.
- PixelState.Read: a read that would throw IllegalStateException, because the slot or the red, green or blue read by its hook is unavailable, is excluded by the precondition `Readable`, not modelled as an error value. On a `Pixel` satisfying `Valid()` such a read cannot happen.
- Hue is a `real`. The floating-point arithmetic of `getHue` is not modelled.
- ErrorPixels.MovementDifferenceColor: the colour channels of MOVEMENT_DIFFERENCE_INTENSITY come from an unspecified `blend(distance, d2c, ec)` with a byte result. Only its alpha rule is modelled, because the source computes the channels with double ratios and a truncating cast.
- Pixels.Pixel.IsPixelBrightnessSimilar: requires this, d2 and the tolerance to be three distinct pixels with disjoint slots. The source also accepts the same pixel twice, and that aliasing is not covered.
- Pixels.Pixel.IsContrasting: requires three distinct pixels, as above.
- Channel values are unbounded integers. The Java `int` range is not enforced when the `Pixel` constructor, `SetARGB` or `SetChannel` writes a value. The only int arithmetic in the core that can wrap on the modelled inputs, the subtraction and `Math.abs` of `isContrasting`, is modelled with wrap-around (`ColorMath.Int32`, `ColorMath.JavaAbs`). The result agrees with Java whenever the stored values are in the int range. MOVEMENT's `d2c * (ec / 255) + ec` is int arithmetic too, but it cannot wrap, because the transformers require byte channels.
- Pixels.Pixel.Valid requires alpha, red, green and blue to be available. A caller that uses the public `get(c)` to call `setAvailable(false)` on a base slot is outside the model.
- Transformers: the colour written must have byte channels, and so must the pixels read. What the unseen raster write does with out-of-range values is not modelled.
- `toString`, `ImageUtils` (file reading, image creation, type and size checks) and the `BufferedImage` type are left out. Only the reduction of an image cell to `setARGB(int)` is kept.
- `pixelTransparency` and `largeImageThreshold` are stored reals with no logic.
- The `tolerance` field is a `const`. The source never reassigns it after the constructor.
- The options constructor writes the thresholds into the tolerance before it creates the error-colour pixel. The source initialises the field first. The order cannot be observed, because the new pixel shares nothing with the tolerance.
