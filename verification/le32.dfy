/** Little-endian 32-bit words read from raw section bytes. */
module Le32 {

  type Byte = b: int | 0 <= b < 256

  const Two32: nat := 0x1_0000_0000

  /**
   * The unsigned 32-bit word whose little-endian encoding starts at data[i]:
   * data[i] is the least significant byte, data[i + 3] the most significant.
   */
  function GetLe32(data: seq<Byte>, i: nat): (w: nat)
    requires i + 4 <= |data|
    ensures w < Two32
  {
    data[i] as int + 256 * data[i + 1] as int + 65536 * data[i + 2] as int + 16777216 * data[i + 3] as int
  }

  /** The four bytes of w, least significant first. */
  function EncodeLe32(w: nat): (bs: seq<Byte>)
    requires w < Two32
    ensures |bs| == 4
  {
    [w % 256, (w / 256) % 256, (w / 65536) % 256, w / 16777216]
  }

  /** Splitting off the low byte of b + 256 * r. */
  lemma SplitLowByte(b: int, r: nat)
    requires 0 <= b < 256
    ensures (b + 256 * r) % 256 == b
    ensures (b + 256 * r) / 256 == r
  {
  }

  /** Reading the encoding of a word gives the word back. */
  lemma DecodeEncode(w: nat)
    requires w < Two32
    ensures GetLe32(EncodeLe32(w), 0) == w
  {
    var q1 := w / 256;
    var q2 := q1 / 256;
    var q3 := q2 / 256;
    assert w == w % 256 + 256 * q1;
    assert q1 == q1 % 256 + 256 * q2;
    assert q2 == q2 % 256 + 256 * q3;
    assert q2 == w / 65536;
    assert q3 == w / 16777216;
    assert w == w % 256 + 256 * (q1 % 256) + 65536 * (q2 % 256) + 16777216 * q3;
  }

  /** A word determines the four bytes it was read from. */
  lemma EncodeDecode(data: seq<Byte>, i: nat)
    requires i + 4 <= |data|
    ensures EncodeLe32(GetLe32(data, i)) == data[i..i + 4]
  {
    var b0, b1, b2, b3 := data[i] as int, data[i + 1] as int, data[i + 2] as int, data[i + 3] as int;
    var w := GetLe32(data, i);
    var r1 := b1 + 256 * (b2 + 256 * b3);
    assert w == b0 + 256 * r1;
    SplitLowByte(b0, r1);
    SplitLowByte(b1, b2 + 256 * b3);
    SplitLowByte(b2, b3);
    assert w / 65536 == (w / 256) / 256;
    assert w / 16777216 == ((w / 256) / 256) / 256;
  }

  /** The word read at i depends on data[i..i + 4] and on nothing else. */
  lemma GetLe32Local(d: seq<Byte>, i: nat, e: seq<Byte>, j: nat)
    requires i + 4 <= |d| && j + 4 <= |e|
    requires d[i..i + 4] == e[j..j + 4]
    ensures GetLe32(d, i) == GetLe32(e, j)
  {
    assert d[i] == d[i..i + 4][0] == e[j];
    assert d[i + 1] == d[i..i + 4][1] == e[j + 1];
    assert d[i + 2] == d[i..i + 4][2] == e[j + 2];
    assert d[i + 3] == d[i..i + 4][3] == e[j + 3];
  }
}
