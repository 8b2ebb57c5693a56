/**
 * RGBColor: an RGB colour kept both as three 8-bit channels and as the packed
 * 16-bit RGB565 value (bits 15-0 = RRRRRGGGGGGBBBBB).
 */
module RGBColor565 {

  /** `uint8_t`: a colour channel. */
  type Byte = x: int | 0 <= x < 0x100

  /** The RGB565 packing of three channels: the top 5 bits of red, the top 6 of
      green and the top 5 of blue. `c >> k` on a non-negative channel is `c / 2^k`. */
  function Pack565(r: Byte, g: Byte, b: Byte): (color: bv16)
    ensures color >> 11 == (r / 8) as bv16
    ensures (color >> 5) & 63 == (g / 4) as bv16
    ensures color & 31 == (b / 8) as bv16
  {
    (((r / 8) as bv16) << 11) | (((g / 4) as bv16) << 5) | ((b / 8) as bv16)
  }

  /** A field narrower than 16 bits survives the conversion to `bv16` unchanged. */
  lemma FieldRoundTrip(field: int)
    requires 0 <= field < 64
    ensures (field as bv16) as int == field
  {
  }

  /** Packing forgets exactly the low 3/2/3 bits of the channels: two triples pack
      alike if and only if they agree in their top 5/6/5 bits. */
  lemma PackEqualIff(r: Byte, g: Byte, b: Byte, r': Byte, g': Byte, b': Byte)
    ensures Pack565(r, g, b) == Pack565(r', g', b') <==> r / 8 == r' / 8 && g / 4 == g' / 4 && b / 8 == b' / 8
  {
    if Pack565(r, g, b) == Pack565(r', g', b') {
      FieldRoundTrip(r / 8); FieldRoundTrip(r' / 8);
      FieldRoundTrip(g / 4); FieldRoundTrip(g' / 4);
      FieldRoundTrip(b / 8); FieldRoundTrip(b' / 8);
    }
  }

  /** The per-channel lambda of `Scale`: `uint8_t(uint16_t(c) * maxBrightness / 255)`.
      The product is at most 255 * 255, so no intermediate value overflows. */
  function ScaleChannel(c: Byte, maxBrightness: Byte): (s: Byte)
    ensures s * 255 <= c * maxBrightness < s * 255 + 255
    ensures s <= c
    ensures maxBrightness == 255 ==> s == c
    ensures maxBrightness == 0 ==> s == 0
  {
    var p := c * maxBrightness;
    assert p <= c * 255;
    p / 255
  }

  /** A brighter limit never gives a darker channel. */
  lemma ScaleMonotone(c: Byte, m1: Byte, m2: Byte)
    requires m1 <= m2
    ensures ScaleChannel(c, m1) <= ScaleChannel(c, m2)
  {
    var p1, p2 := c * m1, c * m2;
    assert p2 - p1 == c * (m2 - m1);
    assert p1 <= p2;
  }

  /** `Mathematics::Constrain<uint8_t>`: clamps a `uint8_t` value into [minimum, maximum]. */
  function Constrain(value: Byte, minimum: Byte, maximum: Byte): (c: Byte)
    requires minimum <= maximum
    ensures minimum <= c <= maximum
    ensures minimum <= value <= maximum ==> c == value
  {
    if value < minimum then minimum else if value > maximum then maximum else value
  }

  /** The conversion of an `int` argument to `uint8_t`: reduction modulo 256. */
  function ToByte(x: nat): (b: Byte)
    ensures x < 0x100 ==> b == x
    ensures x - b == (x / 0x100) * 0x100
  {
    x % 0x100
  }

  /** The per-channel lambda of `Add` as written: `c + value` is an `int`, and passing
      it to `Constrain<uint8_t>` converts it to `uint8_t` before any clamping. */
  function AddChannelAsWritten(c: Byte, value: Byte): (s: Byte)
    ensures c + value <= 255 ==> s == c + value
    ensures c + value > 255 ==> s == c + value - 0x100
  {
    Constrain(ToByte(c + value), 0, 255)
  }

  /** As written, a sum past 255 wraps around instead of saturating: a light channel
      becomes dark. */
  lemma AddChannelAsWrittenWraps()
    ensures AddChannelAsWritten(200, 100) == 44
    ensures exists c: Byte, value: Byte :: AddChannelAsWritten(c, value) < c
  {
    assert AddChannelAsWritten(200, 100) < 200;
  }

  /** The per-channel lambda of `Add` as the clamp to [0, 255] intends it: a saturating sum. */
  function AddChannel(c: Byte, value: Byte): (s: Byte)
    ensures c + value <= 255 ==> s == c + value
    ensures c + value > 255 ==> s == 255
  {
    if c + value > 255 then 255 else c + value
  }

  /** The saturating sum never darkens a channel, grows with the added value, and
      agrees with the code as written whenever the sum fits in a byte. */
  lemma AddChannelSaturates(c: Byte, value: Byte, value': Byte)
    ensures c <= AddChannel(c, value)
    ensures AddChannel(c, 0) == c
    ensures value <= value' ==> AddChannel(c, value) <= AddChannel(c, value')
    ensures AddChannel(c, value) == AddChannelAsWritten(c, value) <==> c + value <= 255
  {
  }

  /** RGBColor: the three 8-bit channels and the packed value, kept in step by the
      class's own methods. The channels are public in the source, so a direct write
      to them can break `Valid()`; the model only has the class's methods. */
  class RGBColor {
    var color: bv16
    var r: Byte
    var g: Byte
    var b: Byte

    /** `color` is the packing of the current channels. */
    ghost predicate Valid()
      reads this
    {
      color == Pack565(r, g, b)
    }

    /** `RGBColor() = default`: black. */
    constructor ()
      ensures Valid()
      ensures r == 0 && g == 0 && b == 0 && color == 0
    {
      color := 0;
      r, g, b := 0, 0, 0;
    }

    /** `RGBColor(r, g, b)`: through `SetColor`. */
    constructor FromChannels(rIn: Byte, gIn: Byte, bIn: Byte)
      ensures Valid()
      ensures r == rIn && g == gIn && b == bIn && color == Pack565(rIn, gIn, bIn)
    {
      new;
      SetColor(rIn, gIn, bIn);
    }

    /** The defaulted copy constructor: every field copied. */
    constructor Copy(other: RGBColor)
      ensures r == other.r && g == other.g && b == other.b && color == other.color
      ensures other.Valid() ==> Valid()
    {
      color := other.color;
      r, g, b := other.r, other.g, other.b;
    }

    /** Stores the channels unchanged and repacks. */
    method SetColor(rIn: Byte, gIn: Byte, bIn: Byte)
      modifies this
      ensures Valid()
      ensures r == rIn && g == gIn && b == bIn && color == Pack565(rIn, gIn, bIn)
    {
      r, g, b := rIn, gIn, bIn;
      Pack();
    }

    /** Recomputes `color` from the channels; the channels are left as they are. */
    method Pack()
      modifies this`color
      ensures Valid()
      ensures color == Pack565(r, g, b)
    {
      color := (((r / 8) as bv16) << 11) | (((g / 4) as bv16) << 5) | ((b / 8) as bv16);
    }

    /** A new colour with every channel scaled by `maxBrightness / 255`; the receiver
        is not modified (no `modifies` clause). */
    method Scale(maxBrightness: Byte) returns (c: RGBColor)
      ensures fresh(c) && c.Valid()
      ensures c.r == ScaleChannel(r, maxBrightness)
      ensures c.g == ScaleChannel(g, maxBrightness)
      ensures c.b == ScaleChannel(b, maxBrightness)
    {
      c := new RGBColor.FromChannels(ScaleChannel(r, maxBrightness), ScaleChannel(g, maxBrightness), ScaleChannel(b, maxBrightness));
    }

    /** A new colour with `value` added to every channel, saturating at 255; the
        receiver is not modified. */
    method Add(value: Byte) returns (c: RGBColor)
      ensures fresh(c) && c.Valid()
      ensures c.r == AddChannel(r, value)
      ensures c.g == AddChannel(g, value)
      ensures c.b == AddChannel(b, value)
    {
      c := new RGBColor.FromChannels(AddChannel(r, value), AddChannel(g, value), AddChannel(b, value));
    }
  }
}
