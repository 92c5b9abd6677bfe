/** Python ``bytes`` values: bytes, clamped slices, big-endian integers and exclusive-or. */
module ByteStrings {

  type byte = x: int | 0 <= x < 256

  type Bytes = seq<byte>

  type u32 = x: int | 0 <= x < 0x1_0000_0000

  datatype Option<+T> = None | Some(value: T)

  /** ``s[lo:hi]`` with non-negative bounds, which Python clamps to the length of ``s``. */
  function Slice(s: Bytes, lo: nat, hi: nat): (r: Bytes)
  {
    var h := if hi < |s| then hi else |s|;
    if lo <= h then s[lo..h] else []
  }

  lemma Associative(a: Bytes, b: Bytes, c: Bytes)
    ensures a + (b + c) == (a + b) + c
  {
  }

  lemma TailOfTail(s: Bytes, from: nat, more: nat)
    requires from + more <= |s|
    ensures s[from..][more..] == s[from + more..]
  {
  }

  lemma WholeTail(s: Bytes, from: nat)
    requires from <= |s|
    ensures s[from..|s|] == s[from..]
  {
  }

  lemma PrefixSplits(s: Bytes, head: Bytes)
    requires head <= s
    ensures s == head + s[|head|..]
  {
  }

  lemma SlicesJoin(s: Bytes, a: nat, b: nat, c: nat)
    requires a <= b <= c <= |s|
    ensures s[a..b] + s[b..c] == s[a..c]
  {
  }

  function Flatten(ss: seq<Bytes>): Bytes
  {
    if ss == [] then [] else Flatten(ss[..|ss| - 1]) + ss[|ss| - 1]
  }

  lemma FlattenSnoc(ss: seq<Bytes>, x: Bytes)
    ensures Flatten(ss + [x]) == Flatten(ss) + x
  {
    assert (ss + [x])[..|ss|] == ss;
  }

  lemma {:induction false} FlattenConcat(a: seq<Bytes>, b: seq<Bytes>)
    ensures Flatten(a + b) == Flatten(a) + Flatten(b)
  {
    if b == [] {
      assert a + b == a;
    } else {
      var n := |b| - 1;
      FlattenConcat(a, b[..n]);
      assert a + b == (a + b[..n]) + [b[n]];
      FlattenSnoc(a + b[..n], b[n]);
      Associative(Flatten(a), Flatten(b[..n]), b[n]);
    }
  }

  // Big-endian integers, struct.pack(">H") and struct.pack(">I").

  function PackU16(x: int): (r: Bytes)
    requires 0 <= x < 0x1_0000
    ensures |r| == 2
  {
    [x / 0x100, x % 0x100]
  }

  function UnpackU16(b: Bytes): (x: int)
    requires |b| == 2
    ensures 0 <= x < 0x1_0000
  {
    var hi: int, lo: int := b[0], b[1];
    hi * 0x100 + lo
  }

  lemma U16RoundTrip(x: int)
    requires 0 <= x < 0x1_0000
    ensures UnpackU16(PackU16(x)) == x
  {
  }

  lemma U16Repacks(b: Bytes)
    requires |b| == 2
    ensures PackU16(UnpackU16(b)) == b
  {
  }

  function PackU32(x: u32): (r: Bytes)
    ensures |r| == 4
  {
    [x / 0x100 / 0x100 / 0x100, x / 0x100 / 0x100 % 0x100, x / 0x100 % 0x100, x % 0x100]
  }

  function UnpackU32(b: Bytes): (x: u32)
    requires |b| == 4
  {
    var w3: int, w2: int, w1: int, w0: int := b[0], b[1], b[2], b[3];
    ((w3 * 0x100 + w2) * 0x100 + w1) * 0x100 + w0
  }

  lemma U32RoundTrip(x: u32)
    ensures UnpackU32(PackU32(x)) == x
  {
  }

  /** Two octets, the high one first. */
  lemma U16BigEndian(x: int, hi: byte, lo: byte)
    requires 0 <= x < 65536
    ensures UnpackU16([hi, lo]) == hi * 256 + lo
    ensures PackU16(x) == [hi, lo] <==> x == hi * 256 + lo
  {
  }

  /** Four octets, the highest first. */
  lemma U32BigEndian(x: u32, b3: byte, b2: byte, b1: byte, b0: byte)
    ensures UnpackU32([b3, b2, b1, b0]) == b3 * 16777216 + b2 * 65536 + b1 * 256 + b0
    ensures PackU32(x) == [b3, b2, b1, b0] <==> x == b3 * 16777216 + b2 * 65536 + b1 * 256 + b0
  {
    U32RoundTrip(x);
    U32Repacks(b3, b2, b1, b0);
  }

  lemma LowOctet(w: nat, b: byte)
    ensures (w * 256 + b) / 256 == w && (w * 256 + b) % 256 == b
  {
  }

  lemma U32Repacks(b3: byte, b2: byte, b1: byte, b0: byte)
    ensures PackU32(UnpackU32([b3, b2, b1, b0])) == [b3, b2, b1, b0]
  {
    var w3: int := b3;
    var w2, w1 := w3 * 256 + b2, (w3 * 256 + b2) * 256 + b1;
    LowOctet(w3, b2);
    LowOctet(w2, b1);
    LowOctet(w1, b0);
  }

  /** The four octets at ``i``, the highest first. */
  function BigEndianAt(s: Bytes, i: nat): (x: u32)
    requires i + 4 <= |s|
    ensures var b3: int, b2: int, b1: int, b0: int := s[i], s[i + 1], s[i + 2], s[i + 3];
            x == b3 * 16777216 + b2 * 65536 + b1 * 256 + b0
  {
    U32BigEndian(0, s[i], s[i + 1], s[i + 2], s[i + 3]);
    UnpackU32([s[i], s[i + 1], s[i + 2], s[i + 3]])
  }

  lemma UnpackedAt(s: Bytes, i: nat)
    requires i + 4 <= |s|
    ensures UnpackU32(s[i..i + 4]) == BigEndianAt(s, i)
  {
    assert s[i..i + 4] == [s[i], s[i + 1], s[i + 2], s[i + 3]];
  }

  lemma PackedAt(s: Bytes, i: nat, x: u32)
    requires i + 4 <= |s| && s[i..i + 4] == PackU32(x)
    ensures BigEndianAt(s, i) == x
  {
    assert s[i..i + 4] == [s[i], s[i + 1], s[i + 2], s[i + 3]];
    U32RoundTrip(x);
  }

  // Exclusive-or.

  function XorByte(a: byte, b: byte): (r: byte)
  {
    ((a as bv8) ^ (b as bv8)) as int
  }

  lemma ByteOfBits(x: bv8)
    ensures (x as int) as bv8 == x
  {
  }

  lemma BitsSuccessor(x: bv8)
    requires x != 0xFF
    ensures (x + 1) as int == x as int + 1
  {
  }

  /** The octet counted up to, which makes the conversion from ``int`` onto. */
  function Octet(a: byte): (x: bv8)
    ensures x as int == a
  {
    if a == 0 then 0
    else
      var x := Octet(a - 1);
      BitsSuccessor(x);
      x + 1
  }

  lemma BitsOfByte(a: byte)
    ensures (a as bv8) as int == a
  {
    ByteOfBits(Octet(a));
  }

  lemma XorBitsCancel(x: bv8, y: bv8)
    ensures (x ^ y) ^ y == x
  {
  }

  lemma XorByteBits(z: bv8, y: bv8, c: byte, b: byte)
    requires c == z as int && b == y as int
    ensures XorByte(c, b) == (z ^ y) as int
  {
    ByteOfBits(z);
    ByteOfBits(y);
    assert c as bv8 == z;
    assert b as bv8 == y;
  }

  lemma XorByteCancels(a: byte, b: byte)
    ensures XorByte(XorByte(a, b), b) == a
  {
    BitsOfByte(a);
    BitsOfByte(b);
    XorBitsCancel(a as bv8, b as bv8);
    XorByteBits((a as bv8) ^ (b as bv8), b as bv8, XorByte(a, b), b);
  }

  function Xor(a: Bytes, b: Bytes): (r: Bytes)
    requires |a| == |b|
    ensures |r| == |a|
  {
    seq(|a|, i requires 0 <= i < |a| => XorByte(a[i], b[i]))
  }

  lemma XorCancels(a: Bytes, b: Bytes)
    requires |a| == |b|
    ensures Xor(Xor(a, b), b) == a
  {
    forall i | 0 <= i < |a| ensures Xor(Xor(a, b), b)[i] == a[i] {
      XorByteCancels(a[i], b[i]);
    }
  }
}
