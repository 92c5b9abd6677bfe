/** The nonce transform of cpd7/crypto.py, on 32-bit words. */
module Nonce {
  import opened ByteStrings

  /** The little-endian word of four octets. */
  function Word(a: bv8, b: bv8, c: bv8, d: bv8): bv32
  {
    (a as bv32) | ((b as bv32) << 8) | ((c as bv32) << 16) | ((d as bv32) << 24)
  }

  function LowByte(w: bv32): bv8
  {
    (w & 0xFF) as bv8
  }

  /** struct.unpack("<I"). */
  function UnpackLittle(b: Bytes): bv32
    requires |b| == 4
  {
    Word(b[0] as bv8, b[1] as bv8, b[2] as bv8, b[3] as bv8)
  }

  /** struct.pack("<I"). */
  function PackLittle(w: bv32): (b: Bytes)
    ensures |b| == 4
  {
    [LowByte(w) as int, LowByte(w >> 8) as int, LowByte(w >> 16) as int, LowByte(w >> 24) as int]
  }

  /** The half-word byte swap, then the 16-bit rotation, with Python's precedence of & over |. */
  function SwapWord(u: bv32): bv32
  {
    var v := ((u & 0xFF00_FF00) >> 8) | ((u & 0x00FF_00FF) << 8);
    (v >> 16) | (((v & 0xFFFF) << 16) & 0xFFFF_FFFF)
  }

  function TransformNonce(nonce: Bytes): (r: Bytes)
    requires |nonce| == 4
    ensures |r| == 4
  {
    PackLittle(SwapWord(UnpackLittle(nonce)))
  }

  function MakeNonce12(nonce: Bytes): (r: Bytes)
    requires |nonce| == 4
    ensures |r| == 12
  {
    TransformNonce(nonce) + [0, 0, 0, 0, 0, 0, 0, 0]
  }

  lemma SwapWordReverses(a: bv8, b: bv8, c: bv8, d: bv8)
    ensures var w := SwapWord(Word(a, b, c, d));
            LowByte(w) == d && LowByte(w >> 8) == c && LowByte(w >> 16) == b && LowByte(w >> 24) == a
  {
  }

  /** The whole chain is byte reversal. */
  lemma TransformNonceReverses(nonce: Bytes)
    requires |nonce| == 4
    ensures TransformNonce(nonce) == [nonce[3], nonce[2], nonce[1], nonce[0]]
  {
    SwapWordReverses(nonce[0] as bv8, nonce[1] as bv8, nonce[2] as bv8, nonce[3] as bv8);
    BitsOfByte(nonce[0]);
    BitsOfByte(nonce[1]);
    BitsOfByte(nonce[2]);
    BitsOfByte(nonce[3]);
  }

  lemma TransformNonceInvolutive(nonce: Bytes)
    requires |nonce| == 4
    ensures TransformNonce(TransformNonce(nonce)) == nonce
  {
    TransformNonceReverses(nonce);
    TransformNonceReverses(TransformNonce(nonce));
  }

  /** The ChaCha20 nonce: the wire nonce reversed, then eight zeros. */
  lemma MakeNonce12Bytes(n: Bytes)
    requires |n| == 4
    ensures MakeNonce12(n) == [n[3], n[2], n[1], n[0], 0, 0, 0, 0, 0, 0, 0, 0]
  {
    TransformNonceReverses(n);
  }

  /** Distinct wire nonces give distinct ChaCha20 nonces. */
  lemma MakeNonce12Injective(x: Bytes, y: Bytes)
    requires |x| == |y| == 4
    ensures MakeNonce12(x) == MakeNonce12(y) <==> x == y
  {
    TransformNonceInvolutive(x);
    TransformNonceInvolutive(y);
    assert MakeNonce12(x)[..4] == TransformNonce(x);
    assert MakeNonce12(y)[..4] == TransformNonce(y);
  }
}
