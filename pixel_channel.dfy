/**
 * The channel contract: the seven channel kinds of a pixel, and one typed
 * slot holding a value together with an `available` flag.
 */
module PixelChannels {

  /** The fixed, ordered channel kinds. */
  datatype Channel = Alpha | Red | Green | Blue | MinBrightness | MaxBrightness | Hue

  /** All channel kinds in declaration order (Java's `Channel.values()`). */
  const Channels: seq<Channel> := [Alpha, Red, Green, Blue, MinBrightness, MaxBrightness, Hue]

  /** Position of a kind in declaration order (Java's `ordinal()`). */
  function Ordinal(c: Channel): (i: nat)
    ensures i < |Channels| && Channels[i] == c
  {
    match c
    case Alpha => 0
    case Red => 1
    case Green => 2
    case Blue => 3
    case MinBrightness => 4
    case MaxBrightness => 5
    case Hue => 6
  }

  /** There are exactly seven kinds, each at its own position. */
  lemma ChannelsDistinct()
    ensures |Channels| == 7
    ensures forall i, j | 0 <= i < j < |Channels| :: Channels[i] != Channels[j]
    ensures forall c: Channel :: c in Channels
  {
    forall c: Channel ensures c in Channels {
      assert Channels[Ordinal(c)] == c;
    }
  }

  /** The channels whose writes invalidate the derived channels. */
  predicate IsRgb(c: Channel) {
    c == Red || c == Green || c == Blue
  }

  /** The channels filled on demand from red, green and blue. */
  predicate IsDerived(c: Channel) {
    c == MinBrightness || c == MaxBrightness || c == Hue
  }

  /**
   * A channel value: an Integer for the byte-valued channels, a Double
   * (here a real) for the hue.
   */
  datatype Number = IntNumber(n: int) | DoubleNumber(x: real)

  /** The value type the channel kind holds. */
  predicate HoldsKind(c: Channel, v: Number) {
    if c == Hue then v.DoubleNumber? else v.IntNumber?
  }

  /** The value a freshly made slot holds before anything is written to it. */
  function ZeroOf(c: Channel): (v: Number)
    ensures HoldsKind(c, v)
  {
    if c == Hue then DoubleNumber(0.0) else IntNumber(0)
  }

  /** Outcome of reading a slot: its value, or IllegalStateException. */
  datatype Result<T> = Ok(value: T) | IllegalState

  /** One channel slot of a pixel. */
  class PixelChannel {
    const channel: Channel
    var value: Number
    var available: bool

    /** A new slot of the given kind starts unavailable. */
    constructor(channel: Channel)
      ensures this.channel == channel && value == ZeroOf(channel) && !available
    {
      this.channel := channel;
      value := ZeroOf(channel);
      available := false;
    }

    /**
     * Reads the value. A slot on its own has no fill hook, so an
     * unavailable slot fails with IllegalState; the hook of the derived
     * channels is run by the owning pixel (Pixel.Get).
     */
    method GetValue() returns (r: Result<Number>)
      ensures r.Ok? <==> available
      ensures r.Ok? ==> r.value == value
    {
      if available {
        r := Ok(value);
      } else {
        r := IllegalState;
      }
    }

    /** Stores `v` and marks the slot available. */
    method SetValue(v: Number)
      modifies this
      ensures value == v && available
    {
      value := v;
      available := true;
    }

    /** Sets the available flag without touching the value. */
    method SetAvailable(b: bool)
      modifies this
      ensures available == b && value == old(value)
    {
      available := b;
    }

    method IsAvailable() returns (b: bool)
      ensures b == available
    {
      b := available;
    }

    /** The kind of the slot, fixed when the slot is made. */
    method GetChannel() returns (c: Channel)
      ensures c == channel
    {
      c := channel;
    }
  }

  /** A write followed by a read yields the written value. */
  method SetThenGet(slot: PixelChannel, v: Number) returns (r: Result<Number>)
    modifies slot
    ensures r == Ok(v) && slot.available
  {
    slot.SetValue(v);
    r := slot.GetValue();
  }
}
