/** AES-CBC with PKCS#7 padding (lan_client.py:50-55, cas.py:175-184) over an uninterpreted block permutation. */
module BlockCiphers {
  import opened ByteStrings

  const BLOCK_SIZE := 16

  type Block = b: Bytes | |b| == BLOCK_SIZE witness [0, 0, 0, 0, 0, 0, 0, 0, 0, 0, 0, 0, 0, 0, 0, 0]

  /** The fixed initialisation vector of both clients: ASCII 01234567, then zeros. */
  const AES_IV: Block := [0x30, 0x31, 0x32, 0x33, 0x34, 0x35, 0x36, 0x37, 0, 0, 0, 0, 0, 0, 0, 0]

  /** A keyed block permutation and its inverse. */
  datatype Permutation = Permutation(enc: (Bytes, Block) -> Block, dec: (Bytes, Block) -> Block) {
    ghost predicate Inverse()
    {
      && (forall k: Bytes, b: Block :: dec(k, enc(k, b)) == b)
      && (forall k: Bytes, b: Block :: enc(k, dec(k, b)) == b)
    }
  }

  type BlockCipher = p: Permutation | p.Inverse()
    witness Permutation((k: Bytes, b: Block) => b, (k: Bytes, b: Block) => b)

  // Cipher block chaining, section 6.2 of NIST SP 800-38A.

  function CbcEncrypt(c: BlockCipher, key: Bytes, iv: Block, plain: Bytes): (r: Bytes)
    requires |plain| % BLOCK_SIZE == 0
    ensures |r| == |plain|
    decreases |plain|
  {
    if plain == [] then []
    else
      var first := c.enc(key, Xor(plain[..BLOCK_SIZE], iv));
      first + CbcEncrypt(c, key, first, plain[BLOCK_SIZE..])
  }

  function CbcDecrypt(c: BlockCipher, key: Bytes, iv: Block, cipher: Bytes): (r: Bytes)
    requires |cipher| % BLOCK_SIZE == 0
    ensures |r| == |cipher|
    decreases |cipher|
  {
    if cipher == [] then []
    else
      var first := cipher[..BLOCK_SIZE];
      Xor(c.dec(key, first), iv) + CbcDecrypt(c, key, first, cipher[BLOCK_SIZE..])
  }

  lemma {:induction false} CbcDecryptsEncrypted(c: BlockCipher, key: Bytes, iv: Block, plain: Bytes)
    requires |plain| % BLOCK_SIZE == 0
    ensures CbcDecrypt(c, key, iv, CbcEncrypt(c, key, iv, plain)) == plain
    decreases |plain|
  {
    if plain != [] {
      var block := plain[..BLOCK_SIZE];
      var first := c.enc(key, Xor(block, iv));
      var cipher := CbcEncrypt(c, key, iv, plain);
      assert cipher[..BLOCK_SIZE] == first && cipher[BLOCK_SIZE..] == CbcEncrypt(c, key, first, plain[BLOCK_SIZE..]);
      XorCancels(block, iv);
      CbcDecryptsEncrypted(c, key, first, plain[BLOCK_SIZE..]);
    }
  }

  lemma {:induction false} CbcEncryptsDecrypted(c: BlockCipher, key: Bytes, iv: Block, cipher: Bytes)
    requires |cipher| % BLOCK_SIZE == 0
    ensures CbcEncrypt(c, key, iv, CbcDecrypt(c, key, iv, cipher)) == cipher
    decreases |cipher|
  {
    if cipher != [] {
      var first := cipher[..BLOCK_SIZE];
      var block := Xor(c.dec(key, first), iv);
      var plain := CbcDecrypt(c, key, iv, cipher);
      assert plain[..BLOCK_SIZE] == block && plain[BLOCK_SIZE..] == CbcDecrypt(c, key, first, cipher[BLOCK_SIZE..]);
      XorCancels(c.dec(key, first), iv);
      CbcEncryptsDecrypted(c, key, first, cipher[BLOCK_SIZE..]);
    }
  }

  // The equations of section 6.2, block by block.

  /** Bitwise exclusive-or of two blocks. */
  function Mixed(a: Block, b: Block): (r: Block)
  {
    seq<byte>(16, j requires 0 <= j < 16 => ((a[j] as bv8) ^ (b[j] as bv8)) as int)
  }

  lemma MixedBits(a: Block, b: Block)
    ensures forall j | 0 <= j < 16 :: Mixed(a, b)[j] == ((a[j] as bv8) ^ (b[j] as bv8)) as int
    ensures Mixed(a, b) == Xor(a, b)
  {
    assert forall j | 0 <= j < 16 :: Xor(a, b)[j] == Mixed(a, b)[j];
  }

  function BlockAt(s: Bytes, k: nat): Block
    requires 16 * (k + 1) <= |s|
  {
    s[16 * k..16 * (k + 1)]
  }

  lemma LaterBlock(s: Bytes, k: nat)
    requires 16 * (k + 2) <= |s|
    ensures BlockAt(s, k + 1) == BlockAt(s[16..], k)
  {
  }

  /** Each ciphertext block enciphers its plaintext block mixed with the ciphertext block before, or the vector. */
  lemma {:induction false} CbcEncryptBlocks(c: BlockCipher, key: Bytes, iv: Block, plain: Bytes, k: nat)
    requires |plain| % 16 == 0 && 16 * (k + 1) <= |plain|
    ensures var cipher := CbcEncrypt(c, key, iv, plain);
            var before := if k == 0 then iv else BlockAt(cipher, k - 1);
            BlockAt(cipher, k) == c.enc(key, Mixed(BlockAt(plain, k), before))
    decreases k
  {
    var cipher := CbcEncrypt(c, key, iv, plain);
    var first := c.enc(key, Xor(plain[..16], iv));
    assert cipher[..16] == first && cipher[16..] == CbcEncrypt(c, key, first, plain[16..]);
    if k == 0 {
      MixedBits(plain[..16], iv);
    } else {
      CbcEncryptBlocks(c, key, first, plain[16..], k - 1);
      LaterBlock(plain, k - 1);
      LaterBlock(cipher, k - 1);
      if k > 1 {
        LaterBlock(cipher, k - 2);
      }
    }
  }

  /** Each block of the plaintext is the deciphered block mixed with the ciphertext block before, or the vector. */
  lemma {:induction false} CbcDecryptBlocks(c: BlockCipher, key: Bytes, iv: Block, cipher: Bytes, k: nat)
    requires |cipher| % 16 == 0 && 16 * (k + 1) <= |cipher|
    ensures var before := if k == 0 then iv else BlockAt(cipher, k - 1);
            BlockAt(CbcDecrypt(c, key, iv, cipher), k) == Mixed(c.dec(key, BlockAt(cipher, k)), before)
    decreases k
  {
    var plain := CbcDecrypt(c, key, iv, cipher);
    var first := cipher[..16];
    assert plain[..16] == Xor(c.dec(key, first), iv) && plain[16..] == CbcDecrypt(c, key, first, cipher[16..]);
    if k == 0 {
      MixedBits(c.dec(key, first), iv);
    } else {
      CbcDecryptBlocks(c, key, first, cipher[16..], k - 1);
      LaterBlock(plain, k - 1);
      LaterBlock(cipher, k - 1);
      if k > 1 {
        LaterBlock(cipher, k - 2);
      }
    }
  }

  // PKCS#7 padding, section 6.3 of RFC 5652.

  function Padding(n: int): (r: Bytes)
    requires 1 <= n <= BLOCK_SIZE
    ensures |r| == n
  {
    seq<byte>(n, _ => n)
  }

  function Pad(p: Bytes): (r: Bytes)
    ensures |r| % BLOCK_SIZE == 0
  {
    p + Padding(BLOCK_SIZE - |p| % BLOCK_SIZE)
  }

  /** Between one and sixteen bytes are added, up to a multiple of sixteen, and each says how many there are. */
  lemma PadBytes(p: Bytes)
    ensures var d := Pad(p);
            && |p| < |d| <= |p| + 16 && |d| % 16 == 0 && p <= d
            && (forall i | |p| <= i < |d| :: d[i] == |d| - |p|)
  {
  }

  /** None where unpad raises. */
  function Unpad(d: Bytes): Option<Bytes>
  {
    if d == [] || |d| % BLOCK_SIZE != 0 then None
    else
      var n: int := d[|d| - 1];
      if n < 1 || n > BLOCK_SIZE then None
      else if d[|d| - n..] != Padding(n) then None
      else Some(d[..|d| - n])
  }

  /** Unpadding accepts exactly the padded strings. */
  lemma UnpadInvertsPad(d: Bytes, p: Bytes)
    ensures Unpad(d) == Some(p) <==> d == Pad(p)
  {
    if d == Pad(p) {
      var n := BLOCK_SIZE - |p| % BLOCK_SIZE;
      assert d[|d| - 1] == Padding(n)[n - 1] == n;
      assert d[|d| - n..] == Padding(n);
      assert d[..|d| - n] == p;
    }
    if Unpad(d) == Some(p) {
      var n: int := d[|d| - 1];
      assert d == p + Padding(n);
      assert n == BLOCK_SIZE - |p| % BLOCK_SIZE;
    }
  }

  function Encrypt(c: BlockCipher, key: Bytes, plain: Bytes): (r: Bytes)
    ensures |r| % BLOCK_SIZE == 0 && |plain| < |r| <= |plain| + BLOCK_SIZE
  {
    CbcEncrypt(c, key, AES_IV, Pad(plain))
  }

  /** None where the cipher or the padding raises. */
  function Decrypt(c: BlockCipher, key: Bytes, cipher: Bytes): Option<Bytes>
  {
    if |cipher| % BLOCK_SIZE != 0 then None else Unpad(CbcDecrypt(c, key, AES_IV, cipher))
  }

  /** Both clients' ciphertexts, block by block: the padded plaintext is chained from ASCII 01234567 and eight zeros. */
  lemma EncryptedBlocks(c: BlockCipher, key: Bytes, plain: Bytes, k: nat)
    requires 16 * (k + 1) <= |Pad(plain)|
    ensures var cipher := Encrypt(c, key, plain);
            var vector: Block := [0x30, 0x31, 0x32, 0x33, 0x34, 0x35, 0x36, 0x37, 0, 0, 0, 0, 0, 0, 0, 0];
            && |cipher| == |Pad(plain)|
            && var before := if k == 0 then vector else BlockAt(cipher, k - 1);
               BlockAt(cipher, k) == c.enc(key, Mixed(BlockAt(Pad(plain), k), before))
  {
    PadBytes(plain);
    CbcEncryptBlocks(c, key, AES_IV, Pad(plain), k);
  }

  /** Decryption accepts exactly the ciphertexts of some plaintext, and returns that plaintext. */
  lemma DecryptInvertsEncrypt(c: BlockCipher, key: Bytes, cipher: Bytes, plain: Bytes)
    ensures Decrypt(c, key, cipher) == Some(plain) <==> cipher == Encrypt(c, key, plain)
  {
    CbcDecryptsEncrypted(c, key, AES_IV, Pad(plain));
    if |cipher| % BLOCK_SIZE == 0 {
      CbcEncryptsDecrypted(c, key, AES_IV, cipher);
      UnpadInvertsPad(CbcDecrypt(c, key, AES_IV, cipher), plain);
    }
  }
}
