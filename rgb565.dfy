/** The per-pixel arithmetic shared by both RGB888 to RGB565 converters:
    scale each 8-bit channel to 5, 6 and 5 bits, pack the three fields into
    one 16-bit word, and emit that word as two little-endian bytes. */
module Rgb565 {
  import opened Bits

  /** One 8-bit colour component, as an "RGB" image yields it. */
  type Channel = c: nat | c < 256
  /** One byte of the output file. */
  type Byte = b: nat | b < 256
  /** A value that the struct format "<H" (unsigned 16-bit) accepts. */
  type Word = w: nat | w < 0x1_0000
  /** A 5-bit and a 6-bit field of an RGB565 word. */
  type U5 = x: nat | x < 32
  type U6 = x: nat | x < 64

  /** A pixel as read from the source image. */
  datatype Rgb = Rgb(r: Channel, g: Channel, b: Channel)

  /** The three fields of an RGB565 word: red (bits 11-15), green (5-10), blue (0-4). */
  datatype Fields = Fields(r: U5, g: U6, b: U5)

  /** `(c * 31 // 255) & 0x1F`: the red or blue channel scaled to 5 bits.
      The scaled value is already below 32, so the mask changes nothing. */
  function Scale5(c: Channel): (r: U5)
    ensures r == c * 31 / 255
  {
    var q := c * 31 / 255;
    ScaledBounds(c);
    MaskKeepsSmall(q, 5, 0x1F);
    BitAnd(q, 0x1F)
  }

  /** `(c * 63 // 255) & 0x3F`: the green channel scaled to 6 bits.
      The scaled value is already below 64, so the mask changes nothing. */
  function Scale6(c: Channel): (r: U6)
    ensures r == c * 63 / 255
  {
    var q := c * 63 / 255;
    ScaledBounds(c);
    MaskKeepsSmall(q, 6, 0x3F);
    BitAnd(q, 0x3F)
  }

  /** Floor division by 255 brings the products back into 5 and 6 bits. */
  lemma ScaledBounds(c: Channel)
    ensures c * 31 / 255 < 32 && c * 63 / 255 < 64
  {
    assert c * 31 <= 255 * 31;
    assert c * 63 <= 255 * 63;
  }

  /** `(r << 11) | (g << 5) | b`: the fields occupy disjoint bits, so the word is
      their positional sum and fits in 16 bits. */
  function Pack(f: Fields): (v: Word)
    ensures v == f.r * 2048 + f.g * 32 + f.b
  {
    Pow2Values();
    OrShifted(f.r, f.g * 32, 11);
    OrShifted(f.r * 64 + f.g, f.b, 5);
    BitOr(BitOr(Shl(f.r, 11), Shl(f.g, 5)), f.b)
  }

  /** `(v >> 11, (v >> 5) & 0x3F, v & 0x1F)`: the fields read back from a word. */
  function Unpack(v: Word): (f: Fields)
    ensures f.r * 2048 + f.g * 32 + f.b == v
  {
    Pow2Values();
    ShrValues(v);
    AndLowMask(v / 32, 6);
    AndLowMask(v, 5);
    SplitWord(v);
    Fields(Shr(v, 11), BitAnd(Shr(v, 5), 0x3F), BitAnd(v, 0x1F))
  }

  /** A 16-bit word is its top 5 bits, middle 6 bits and low 5 bits, weighted. */
  lemma SplitWord(v: Word)
    ensures v / 2048 < 32
    ensures (v / 2048) * 2048 + ((v / 32) % 64) * 32 + v % 32 == v
  {
    var q := v / 32;
    assert v == 32 * q + v % 32;
    assert q == 64 * (q / 64) + q % 64;
    ModUnique(v, 2048, q / 64, (q % 64) * 32 + v % 32);
  }

  /** The RGB565 word a pixel is converted to. */
  function Encode(px: Rgb): Word
  {
    Pack(Fields(Scale5(px.r), Scale6(px.g), Scale5(px.b)))
  }

  /** A pixel's word holds its scaled channels: red in bits 11-15, green in bits 5-10,
      blue in bits 0-4, each read back unchanged by `Unpack`. */
  lemma EncodeFields(px: Rgb)
    ensures Encode(px) == (px.r * 31 / 255) * 2048 + (px.g * 63 / 255) * 32 + px.b * 31 / 255
    ensures var f := Unpack(Encode(px));
      f.r == px.r * 31 / 255 && f.g == px.g * 63 / 255 && f.b == px.b * 31 / 255
  {
    UnpackPack(Fields(Scale5(px.r), Scale6(px.g), Scale5(px.b)));
  }

  /** `struct.pack("<H", v)`: the low byte first, then the high byte. */
  function WordBytes(v: Word): (bs: seq<Byte>)
    ensures |bs| == 2
    ensures bs[0] as nat + 256 * bs[1] as nat == v
  {
    [v % 256, v / 256]
  }

  /** Reading an unsigned 16-bit little-endian value back from two bytes. */
  function DecodeWord(lo: Byte, hi: Byte): (v: Word)
    ensures v % 256 == lo && v / 256 == hi
  {
    lo as nat + 256 * hi as nat
  }

  /** Unpacking a packed word gives back the three fields. */
  lemma UnpackPack(f: Fields)
    ensures Unpack(Pack(f)) == f
  {
    var v := Pack(f);
    var g := Unpack(v);
    ModUnique(v, 2048, f.r, f.g * 32 + f.b);
    ModUnique(v, 2048, g.r, g.g * 32 + g.b);
    ModUnique(f.g * 32 + f.b, 32, f.g, f.b);
    ModUnique(g.g * 32 + g.b, 32, g.g, g.b);
  }

  /** Packing the fields of any word gives back the word: packing is a bijection
      between field triples and 16-bit words. */
  lemma PackUnpack(v: Word)
    ensures Pack(Unpack(v)) == v
  {
  }

  /** The byte split of `struct.pack("<H", v)` is the low byte mask and the shift by 8. */
  lemma WordBytesAreMaskAndShift(v: Word)
    ensures WordBytes(v) == [BitAnd(v, 0xFF), Shr(v, 8)]
  {
    AndLowMask(v, 8);
    Pow2Values();
    ShrValues(v);
  }

  /** Encoding a word to bytes and decoding it gives the word back. */
  lemma DecodeEncodeWord(v: Word)
    ensures DecodeWord(WordBytes(v)[0], WordBytes(v)[1]) == v
  {
  }

  /** Decoding two bytes and encoding the word gives the bytes back. */
  lemma EncodeDecodeWord(lo: Byte, hi: Byte)
    ensures WordBytes(DecodeWord(lo, hi)) == [lo, hi]
  {
  }

  /** Black packs to 0x0000 and white to 0xFFFF: the scaling maps the full 8-bit
      range onto the full 5- and 6-bit ranges. */
  lemma BlackAndWhite()
    ensures Encode(Rgb(0, 0, 0)) == 0x0000
    ensures Encode(Rgb(255, 255, 255)) == 0xFFFF
  {
    assert Scale5(0) == 0 && Scale6(0) == 0;
    assert Scale5(255) == 31 && Scale6(255) == 63;
  }

  /** Scaling never reverses the order of two channel values. */
  lemma ScaleMonotone(a: Channel, b: Channel)
    requires a <= b
    ensures Scale5(a) <= Scale5(b)
    ensures Scale6(a) <= Scale6(b)
  {
    assert a * 31 <= b * 31;
    assert a * 63 <= b * 63;
  }
}
