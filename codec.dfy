/**
 * The client's DMX level codec. Levels travel as unsigned bytes; the client
 * holds them as Java `short`s and the wire as Java `byte`s, so encoding is the
 * narrowing cast `(byte) v` and decoding is the zero extension `b & 0xFF`.
 */
module Codec {

  /** A Java `byte`. */
  type JavaByte = x: int | -0x80 <= x < 0x80

  /** A Java `short`. */
  type JavaShort = x: int | -0x8000 <= x < 0x8000

  /** `(byte) v`: keep the low 8 bits of v and read them in two's complement. */
  function ByteCast(v: int): (r: JavaByte)
    ensures (r - v) % 0x100 == 0
  {
    var low := v % 0x100;
    if low < 0x80 then low else low - 0x100
  }

  /** `(short) (b & 0xFF)`: the byte's 8 bits read as an unsigned number. */
  function UnsignedValue(b: JavaByte): (r: JavaShort)
    ensures 0 <= r < 0x100
    ensures (r - b) % 0x100 == 0
  {
    if b < 0 then b + 0x100 else b
  }

  /** The bytes `convertToUnsigned` produces, one per level. */
  function EncodeLevels(values: seq<JavaShort>): (bytes: seq<JavaByte>)
    ensures |bytes| == |values|
  {
    seq(|values|, i requires 0 <= i < |values| => ByteCast(values[i]))
  }

  /** The levels `convertFromUnsigned` produces, one per byte. */
  function DecodeLevels(bytes: seq<JavaByte>): (levels: seq<JavaShort>)
    ensures |levels| == |bytes|
  {
    seq(|bytes|, i requires 0 <= i < |bytes| => UnsignedValue(bytes[i]))
  }

  /** Encoding and then decoding one level keeps exactly its low 8 bits. */
  lemma LowByteKept(v: int)
    ensures UnsignedValue(ByteCast(v)) == v % 0x100
  {
    var b := ByteCast(v);
    var r := UnsignedValue(b);
    assert (r - v) % 0x100 == ((r - b) + (b - v)) % 0x100 == 0;
  }

  /** Decoding then encoding one byte gives the byte back. */
  lemma ByteRestored(b: JavaByte)
    ensures ByteCast(UnsignedValue(b)) == b
  {
  }

  /** Levels in [0, 255] survive the trip through the wire unchanged. */
  lemma DecodeEncode(values: seq<JavaShort>)
    requires forall i :: 0 <= i < |values| ==> 0 <= values[i] < 0x100
    ensures DecodeLevels(EncodeLevels(values)) == values
  {
    forall i | 0 <= i < |values|
      ensures DecodeLevels(EncodeLevels(values))[i] == values[i]
    {
      LowByteKept(values[i]);
    }
  }

  /** Levels outside [0, 255] come back as their low 8 bits. */
  lemma DecodeEncodeTruncates(values: seq<JavaShort>)
    ensures forall i :: 0 <= i < |values| ==> DecodeLevels(EncodeLevels(values))[i] == values[i] % 0x100
  {
    forall i | 0 <= i < |values|
      ensures DecodeLevels(EncodeLevels(values))[i] == values[i] % 0x100
    {
      LowByteKept(values[i]);
    }
  }

  /** Bytes survive decoding and re-encoding unchanged. */
  lemma EncodeDecode(bytes: seq<JavaByte>)
    ensures EncodeLevels(DecodeLevels(bytes)) == bytes
  {
    forall i | 0 <= i < |bytes|
      ensures EncodeLevels(DecodeLevels(bytes))[i] == bytes[i]
    {
      ByteRestored(bytes[i]);
    }
  }
}
