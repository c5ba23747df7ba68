/**
 * PixelImpl: seven channel slots indexed by channel ordinal. Writing red,
 * green or blue invalidates the derived slots (the rgbChanged listener);
 * reading an unavailable derived slot fills it (the brightnessNeeded and
 * hsvNeeded listeners). The listener objects are replaced by this fixed
 * dependency graph.
 */
module Pixels {
  import opened PixelChannels
  import opened ColorMath
  import opened PixelState

  /** Allocates the seven slots, each of its own kind and unavailable. */
  method NewSlots() returns (values: array<PixelChannel>, ghost cells: set<PixelChannel>)
    ensures fresh(values) && values.Length == 7 && fresh(cells)
    ensures cells == {values[0], values[1], values[2], values[3], values[4], values[5], values[6]}
    ensures values[0].channel == Alpha && values[1].channel == Red && values[2].channel == Green &&
      values[3].channel == Blue && values[4].channel == MinBrightness &&
      values[5].channel == MaxBrightness && values[6].channel == Hue
    ensures forall i | 0 <= i < 7 :: values[i].value == ZeroOf(values[i].channel) && !values[i].available
  {
    var alpha := new PixelChannel(Alpha);
    var red := new PixelChannel(Red);
    var green := new PixelChannel(Green);
    var blue := new PixelChannel(Blue);
    var minBrightness := new PixelChannel(MinBrightness);
    var maxBrightness := new PixelChannel(MaxBrightness);
    var hue := new PixelChannel(Hue);
    values := new PixelChannel[] [alpha, red, green, blue, minBrightness, maxBrightness, hue];
    cells := {alpha, red, green, blue, minBrightness, maxBrightness, hue};
  }

  class Pixel {
    const values: array<PixelChannel>
    /** The seven slot objects this pixel owns. */
    ghost const Cells: set<PixelChannel>

    ghost predicate Structure()
      reads values
    {
      values.Length == 7 &&
      values[0] in Cells && values[1] in Cells && values[2] in Cells && values[3] in Cells &&
      values[4] in Cells && values[5] in Cells && values[6] in Cells &&
      values[0].channel == Alpha && values[1].channel == Red && values[2].channel == Green &&
      values[3].channel == Blue && values[4].channel == MinBrightness &&
      values[5].channel == MaxBrightness && values[6].channel == Hue
    }

    /** The state of the seven slots, in ordinal order. */
    ghost function Slots(): State
      reads values, Cells
      requires Structure()
    {
      State(Slot(values[0].value, values[0].available), Slot(values[1].value, values[1].available),
            Slot(values[2].value, values[2].available), Slot(values[3].value, values[3].available),
            Slot(values[4].value, values[4].available), Slot(values[5].value, values[5].available),
            Slot(values[6].value, values[6].available))
    }

    /** Slots in place, each holding its kind's value type. */
    ghost predicate Shaped()
      reads values, Cells
    {
      Structure() && Typed(Slots())
    }

    /** Shaped, and alpha, red, green and blue are set. */
    ghost predicate Valid()
      reads values, Cells
    {
      Shaped() && BaseAvailable(Slots())
    }

    /** PixelImpl(a, r, g, b). */
    constructor(a: int, r: int, g: int, b: int)
      ensures Valid() && fresh(values) && fresh(Cells)
      ensures Slots() == Constructed(Color(a, r, g, b))
    {
      var vs, cells := NewSlots();
      values := vs;
      Cells := cells;
      new;
      assert Structure();
      assert Slots() == InitialSlots();
      SetARGB(a, r, g, b);
    }

    /** PixelImpl(): the pixel (0, 0, 0, 0). */
    constructor Default()
      ensures Valid() && fresh(values) && fresh(Cells)
      ensures Slots() == Constructed(Color(0, 0, 0, 0))
    {
      var vs, cells := NewSlots();
      values := vs;
      Cells := cells;
      new;
      assert Structure();
      assert Slots() == InitialSlots();
      SetARGB(0, 0, 0, 0);
    }

    /** PixelImpl(image, x, y): the default pixel, then setARGB(image, x, y). */
    constructor FromImage(image: array2<ARGB>, x: int, y: int)
      requires 0 <= x < image.Length0 && 0 <= y < image.Length1
      ensures Valid() && fresh(values) && fresh(Cells)
      ensures Slots() == AfterSetARGB(Constructed(Color(0, 0, 0, 0)), Unpack(image[x, y]))
    {
      var vs, cells := NewSlots();
      values := vs;
      Cells := cells;
      new;
      assert Structure();
      assert Slots() == InitialSlots();
      SetARGB(0, 0, 0, 0);
      SetARGBFromImage(image, x, y);
    }

    /** get(c): the slot at c's ordinal, which is the slot of kind c. */
    method GetSlot(c: Channel) returns (slot: PixelChannel)
      requires Structure()
      ensures slot == values[Ordinal(c)] && slot in Cells && slot.channel == c
      ensures forall d | d != c :: slot != values[Ordinal(d)]
    {
      slot := values[Ordinal(c)];
    }

    /** The rgbChanged listener: the three derived slots become unavailable. */
    method InvalidateDerived()
      requires Shaped()
      modifies Cells
      ensures Shaped() && Slots() == Invalidated(old(Slots()))
    {
      values[4].SetAvailable(false);
      values[5].SetAvailable(false);
      values[6].SetAvailable(false);
    }

    /** get(c).setValue(v), followed by the change listener of red, green and blue. */
    method SetChannel(c: Channel, v: Number)
      requires Shaped() && HoldsKind(c, v)
      modifies Cells
      ensures Shaped() && Slots() == AfterSet(old(Slots()), c, v)
    {
      values[Ordinal(c)].SetValue(v);
      if IsRgb(c) {
        InvalidateDerived();
      }
    }

    /** setARGB(a, r, g, b): writes the four base channels in order. */
    method SetARGB(a: int, r: int, g: int, b: int)
      requires Shaped()
      modifies Cells
      ensures Valid() && Slots() == AfterSetARGB(old(Slots()), Color(a, r, g, b))
    {
      SetChannel(Alpha, IntNumber(a));
      SetChannel(Red, IntNumber(r));
      SetChannel(Green, IntNumber(g));
      SetChannel(Blue, IntNumber(b));
    }

    /** setARGB(argb): the unpacked channels of a packed colour. */
    method SetPackedARGB(argb: ARGB)
      requires Shaped()
      modifies Cells
      ensures Valid() && Slots() == AfterSetARGB(old(Slots()), Unpack(argb))
    {
      var c := Unpack(argb);
      SetARGB(c.alpha, c.red, c.green, c.blue);
    }

    /** setARGB(image, x, y): the colour of one raster cell. */
    method SetARGBFromImage(image: array2<ARGB>, x: int, y: int)
      requires Shaped()
      requires 0 <= x < image.Length0 && 0 <= y < image.Length1
      modifies Cells
      ensures Valid() && Slots() == AfterSetARGB(old(Slots()), Unpack(image[x, y]))
    {
      SetPackedARGB(image[x, y]);
    }

    /** The value of a base channel: its slot is always available, so reading it changes nothing. */
    function BaseValue(c: Channel): (v: int)
      reads values, Cells
      requires Valid() && !IsDerived(c)
      ensures v == IntAt(Slots(), c)
    {
      values[Ordinal(c)].value.n
    }

    /** The base colour (alpha, red, green, blue) of the pixel. */
    function BaseColor(): (col: Color)
      reads values, Cells
      requires Valid()
      ensures col == ColorOf(Slots())
    {
      Color(BaseValue(Alpha), BaseValue(Red), BaseValue(Green), BaseValue(Blue))
    }

    /** addBrightnessInfo: one brightness value, written to both brightness slots. */
    method AddBrightnessInfo(u: ColorFunctions)
      requires Valid()
      modifies Cells
      ensures Valid() && Slots() == WithBrightness(old(Slots()), u)
    {
      var r := BaseValue(Red);
      var g := BaseValue(Green);
      var b := BaseValue(Blue);
      var brightness := u.brightness(r, g, b);
      values[4].SetValue(IntNumber(brightness));
      values[5].SetValue(IntNumber(brightness));
    }

    /** addHueInfo: the hue of the current red, green and blue. */
    method AddHueInfo(u: ColorFunctions)
      requires Valid()
      modifies Cells
      ensures Valid() && Slots() == WithHue(old(Slots()), u)
    {
      var r := BaseValue(Red);
      var g := BaseValue(Green);
      var b := BaseValue(Blue);
      values[6].SetValue(DoubleNumber(u.hue(r, g, b)));
    }

    /**
     * get(c).getValue(): an unavailable derived slot is filled by its hook
     * first. The IllegalState outcome of a slot without a hook cannot occur
     * on a valid pixel.
     */
    method Get(c: Channel, u: ColorFunctions) returns (r: Result<Number>)
      requires Valid()
      modifies Cells
      ensures Valid()
      ensures r == Ok(Read(old(Slots()), c, u).0) && Slots() == Read(old(Slots()), c, u).1
    {
      var slot := values[Ordinal(c)];
      r := slot.GetValue();
      if r.IllegalState? {
        if c == MinBrightness || c == MaxBrightness {
          AddBrightnessInfo(u);
        } else if c == Hue {
          AddHueInfo(u);
        }
        r := slot.GetValue();
      }
    }

    /** isRGBSame: red, green and blue exactly equal. */
    method IsRGBSame(d2: Pixel) returns (same: bool)
      requires Valid() && d2.Valid()
      ensures same == RgbSame(Slots(), d2.Slots())
    {
      var r1 := BaseValue(Red);
      var r2 := d2.BaseValue(Red);
      var g1 := BaseValue(Green);
      var g2 := d2.BaseValue(Green);
      var b1 := BaseValue(Blue);
      var b2 := d2.BaseValue(Blue);
      same := r1 == r2 && g1 == g2 && b1 == b2;
    }

    /** isARGBSimilar: red, green, blue and alpha, in that order, each within tolerance. */
    method IsARGBSimilar(d2: Pixel, tolerance: Pixel) returns (similar: bool)
      requires Valid() && d2.Valid() && tolerance.Valid()
      ensures similar == ArgbSimilar(Slots(), d2.Slots(), tolerance.Slots())
    {
      similar :=
        ColorSimilar(BaseValue(Red), d2.BaseValue(Red), tolerance.BaseValue(Red)) &&
        ColorSimilar(BaseValue(Green), d2.BaseValue(Green), tolerance.BaseValue(Green)) &&
        ColorSimilar(BaseValue(Blue), d2.BaseValue(Blue), tolerance.BaseValue(Blue)) &&
        ColorSimilar(BaseValue(Alpha), d2.BaseValue(Alpha), tolerance.BaseValue(Alpha));
    }

    /**
     * isPixelBrightnessSimilar: false as soon as alpha differs beyond the
     * tolerance, without touching any slot; otherwise min-brightness of
     * this, d2 and the tolerance are read (and filled) and compared.
     */
    method IsPixelBrightnessSimilar(d2: Pixel, tolerance: Pixel, u: ColorFunctions) returns (similar: bool)
      requires Valid() && d2.Valid() && tolerance.Valid()
      requires Cells !! d2.Cells && Cells !! tolerance.Cells && d2.Cells !! tolerance.Cells
      modifies Cells, d2.Cells, tolerance.Cells
      ensures Valid() && d2.Valid() && tolerance.Valid()
      ensures similar == BrightnessSimilar(old(Slots()), old(d2.Slots()), old(tolerance.Slots()), u)
      ensures if ChannelSimilar(old(Slots()), old(d2.Slots()), old(tolerance.Slots()), Alpha) then
          Slots() == Read(old(Slots()), MinBrightness, u).1 &&
          d2.Slots() == Read(old(d2.Slots()), MinBrightness, u).1 &&
          tolerance.Slots() == Read(old(tolerance.Slots()), MinBrightness, u).1
        else
          Slots() == old(Slots()) && d2.Slots() == old(d2.Slots()) && tolerance.Slots() == old(tolerance.Slots())
    {
      similar := ColorSimilar(BaseValue(Alpha), d2.BaseValue(Alpha), tolerance.BaseValue(Alpha));
      if !similar {
        return;
      }
      var thisValue := Get(MinBrightness, u);
      var d2Value := d2.Get(MinBrightness, u);
      var tolValue := tolerance.Get(MinBrightness, u);
      similar := ColorSimilar(thisValue.value.n, d2Value.value.n, tolValue.value.n);
    }

    /**
     * isContrasting: |this.minBrightness - d2.minBrightness| is greater than
     * the tolerance's MAX-brightness slot; each pixel keeps the slots its
     * read filled.
     */
    method IsContrasting(d2: Pixel, tolerance: Pixel, u: ColorFunctions) returns (contrasting: bool)
      requires Valid() && d2.Valid() && tolerance.Valid()
      requires Cells !! d2.Cells && Cells !! tolerance.Cells && d2.Cells !! tolerance.Cells
      modifies Cells, d2.Cells, tolerance.Cells
      ensures Valid() && d2.Valid() && tolerance.Valid()
      ensures contrasting == Contrasting(old(Slots()), old(d2.Slots()), old(tolerance.Slots()), u)
      ensures Slots() == Read(old(Slots()), MinBrightness, u).1
      ensures d2.Slots() == Read(old(d2.Slots()), MinBrightness, u).1
      ensures tolerance.Slots() == Read(old(tolerance.Slots()), MaxBrightness, u).1
      ensures Slots().minBrightness.available && d2.Slots().minBrightness.available
    {
      var thisValue := Get(MinBrightness, u);
      var d2Value := d2.Get(MinBrightness, u);
      var tolValue := tolerance.Get(MaxBrightness, u);
      contrasting := JavaAbs(Int32(thisValue.value.n - d2Value.value.n)) > tolValue.value.n;
    }
  }
}
