/** What a decoder computes of the whole wire stream: frames, key, plaintext, gated output (decoder.py). */
module StreamSpec {
  import opened ByteStrings
  import opened Frames
  import opened KeyframeGate
  import Nonce

  const HMAC_TRAILER_SIZE := 32
  const DATA_HEADER_SIZE := 0x0B

  /** Key derivation from the handshake payload (None: it raised) and the ChaCha20 keystream, left uninterpreted. */
  datatype StreamCrypto = StreamCrypto(
    deriveKey: Bytes -> Option<Bytes>,
    keystream: (Bytes, Bytes, nat) -> byte)

  function Keystream(c: StreamCrypto, key: Bytes, nonce: Bytes, n: nat): (r: Bytes)
    ensures |r| == n
  {
    seq<byte>(n, i requires 0 <= i < n => c.keystream(key, nonce, i))
  }

  function ChaCha20(c: StreamCrypto, key: Bytes, nonce: Bytes, data: Bytes): (r: Bytes)
    ensures |r| == |data|
  {
    Xor(data, Keystream(c, key, nonce, |data|))
  }

  /** The plaintext of one data chunk; empty when the chunk is not one, or when the cipher rejects the key. */
  function DecryptDataChunk(c: StreamCrypto, key: Bytes, chunk: Bytes): Bytes
  {
    if |chunk| < 4 then []
    else
      var pkt := chunk[4..];
      if Slice(pkt, 0, 2) != [0x24, 0x02] then []
      else if |pkt| < DATA_HEADER_SIZE + HMAC_TRAILER_SIZE then []
      else if |key| != 32 then []
      else ChaCha20(c, key, Nonce.MakeNonce12(pkt[7..11]), pkt[DATA_HEADER_SIZE..|pkt| - HMAC_TRAILER_SIZE])
  }

  function FramePlain(c: StreamCrypto, key: Bytes, f: Frame): Bytes
  {
    if f.chan != 0x01 then [] else DecryptDataChunk(c, key, f.payload)
  }

  function PlainChunks(c: StreamCrypto, key: Bytes, frames: seq<Frame>): seq<Bytes>
  {
    seq(|frames|, i requires 0 <= i < |frames| => FramePlain(c, key, frames[i]))
  }

  function DataPlain(c: StreamCrypto, key: Bytes, frames: seq<Frame>): Bytes
  {
    Flatten(PlainChunks(c, key, frames))
  }

  function SessionKey(c: StreamCrypto, frames: seq<Frame>): Option<Bytes>
  {
    if frames == [] then None else c.deriveKey(frames[0].payload)
  }

  /** All plaintext of a frame list: the first frame only yields the key. */
  function PlainOf(c: StreamCrypto, frames: seq<Frame>): Bytes
  {
    match SessionKey(c, frames)
    case None => []
    case Some(key) => DataPlain(c, key, frames[1..])
  }

  /** The reference output for the whole wire stream ``wire``. */
  function Reference(c: StreamCrypto, wire: Bytes): Bytes
  {
    Gate(PlainOf(c, Parse(wire).frames), MAX_PACK_LOOKBACK)
  }

  /** read_chunk's default. */
  const READ_SIZE := 65536

  /** What one read of the PLAY socket may give the pump. */
  predicate IsChunk(raw: Bytes)
  {
    0 < |raw| <= READ_SIZE
  }

  /** What the output gains when ``raw`` follows ``wire``. */
  function Increment(c: StreamCrypto, wire: Bytes, raw: Bytes): Bytes
  {
    Slice(Reference(c, wire + raw), |Reference(c, wire)|, |Reference(c, wire + raw)|)
  }

  lemma NothingDecodedYet(c: StreamCrypto)
    ensures Reference(c, []) == []
  {
  }

  lemma DataPlainConcat(c: StreamCrypto, key: Bytes, a: seq<Frame>, b: seq<Frame>)
    ensures DataPlain(c, key, a + b) == DataPlain(c, key, a) + DataPlain(c, key, b)
  {
    hide FramePlain, Flatten;
    assert PlainChunks(c, key, a + b) == PlainChunks(c, key, a) + PlainChunks(c, key, b);
    FlattenConcat(PlainChunks(c, key, a), PlainChunks(c, key, b));
  }

  lemma DataPlainOne(c: StreamCrypto, key: Bytes, f: Frame)
    ensures DataPlain(c, key, [f]) == FramePlain(c, key, f)
  {
    var x := FramePlain(c, key, f);
    assert PlainChunks(c, key, [f]) == [x];
    FlattenSnoc([], x);
    assert [] + [x] == [x];
  }

  lemma PlainExtends(c: StreamCrypto, a: seq<Frame>, b: seq<Frame>)
    ensures PlainOf(c, a) <= PlainOf(c, a + b)
  {
    if a != [] && SessionKey(c, a).Some? {
      assert (a + b)[1..] == a[1..] + b;
      DataPlainConcat(c, SessionKey(c, a).value, a[1..], b);
    }
  }

  lemma PlainSnoc(c: StreamCrypto, frames: seq<Frame>, f: Frame)
    requires frames != []
    ensures PlainOf(c, frames + [f]) ==
            PlainOf(c, frames) + match SessionKey(c, frames) case None => [] case Some(key) => FramePlain(c, key, f)
  {
    var all := frames + [f];
    assert all[1..] == frames[1..] + [f];
    match SessionKey(c, frames)
    case None =>
    case Some(key) =>
      DataPlainConcat(c, key, frames[1..], [f]);
      DataPlainOne(c, key, f);
  }

  /** Emitted bytes are never taken back: a longer wire stream only extends the output. */
  lemma ReferenceExtends(c: StreamCrypto, wire: Bytes, raw: Bytes)
    ensures Reference(c, wire) <= Reference(c, wire + raw)
    ensures Reference(c, wire + raw) == Reference(c, wire) + Increment(c, wire, raw)
  {
    hide Parse, PlainOf, Gate, SessionKey;
    ParseResumes(wire, raw);
    var a := Parse(wire).frames;
    var b := Parse(Parse(wire).rest + raw).frames;
    PlainExtends(c, a, b);
    GateMonotone(PlainOf(c, a), PlainOf(c, a + b), MAX_PACK_LOOKBACK);
  }

  /** The first bytes ever emitted start at a pack header or marker and bring a whole keyframe marker with them. */
  lemma FirstIncrementSynced(c: StreamCrypto, wire: Bytes, raw: Bytes)
    requires Reference(c, wire) == [] && Increment(c, wire, raw) != []
    ensures IsSyncStart(Increment(c, wire, raw)) && HasKeyframe(Increment(c, wire, raw))
  {
    var r := Reference(c, wire + raw);
    assert r[0..|r|] == r;
    GateShape(PlainOf(c, Parse(wire + raw).frames), MAX_PACK_LOOKBACK);
  }

  // Round trip with the sender's side.

  /** What a sender puts on the wire after the handshake, each behind dollar-free junk. */
  datatype Item =
    | Data(junk: Bytes, prefix: Bytes, head: Bytes, nonce: Bytes, plain: Bytes, trailer: Bytes)
    | Other(junk: Bytes, chan: byte, payload: Bytes)

  predicate ValidItem(i: Item)
  {
    && DOLLAR !in i.junk
    && match i
       case Data(_, prefix, head, nonce, plain, trailer) =>
         && |prefix| == 4 && |head| == 5 && |nonce| == 4 && |trailer| == HMAC_TRAILER_SIZE
         && |plain| + 4 + DATA_HEADER_SIZE + HMAC_TRAILER_SIZE < 0x1_0000
       case Other(_, chan, payload) => chan != 0x01 && |payload| < 0x1_0000
  }

  function DataPayload(c: StreamCrypto, key: Bytes, i: Item): Bytes
    requires i.Data? && ValidItem(i)
  {
    i.prefix + [0x24, 0x02] + i.head + i.nonce + ChaCha20(c, key, Nonce.MakeNonce12(i.nonce), i.plain) + i.trailer
  }

  function SendItem(c: StreamCrypto, key: Bytes, i: Item): Sent
    requires ValidItem(i)
  {
    match i
    case Data(_, _, _, _, _, _) => Sent(i.junk, Frame(0x01, DataPayload(c, key, i)))
    case Other(junk, chan, payload) => Sent(junk, Frame(chan, payload))
  }

  function SendItems(c: StreamCrypto, key: Bytes, items: seq<Item>): (sent: seq<Sent>)
    requires forall k | 0 <= k < |items| :: ValidItem(items[k])
    ensures AllSendable(sent)
  {
    if items == [] then [] else [SendItem(c, key, items[0])] + SendItems(c, key, items[1..])
  }

  function PlainSent(items: seq<Item>): Bytes
  {
    if items == [] then [] else (if items[0].Data? then items[0].plain else []) + PlainSent(items[1..])
  }

  /** Decrypting a wrapped plaintext gives it back. */
  lemma DataChunkRoundTrip(c: StreamCrypto, key: Bytes, i: Item)
    requires i.Data? && ValidItem(i) && |key| == 32
    ensures DecryptDataChunk(c, key, DataPayload(c, key, i)) == i.plain
  {
    var nonce := Nonce.MakeNonce12(i.nonce);
    var body := ChaCha20(c, key, nonce, i.plain);
    var pkt := DataPayload(c, key, i)[4..];
    assert pkt == [0x24, 0x02] + i.head + i.nonce + body + i.trailer;
    assert pkt[..2] == [0x24, 0x02];
    assert pkt[7..11] == i.nonce;
    assert pkt[DATA_HEADER_SIZE..|pkt| - HMAC_TRAILER_SIZE] == body;
    XorCancels(i.plain, Keystream(c, key, nonce, |i.plain|));
  }

  /**
   A data chunk byte by byte: after fifteen bytes of prefix, magic, header and nonce, and before a trailer of 32, every
   byte is exclusive-or'd with the keystream of the reversed nonce.
   */
  lemma DataChunkBytes(c: StreamCrypto, key: Bytes, chunk: Bytes, i: nat)
    requires |key| == 32 && |chunk| >= 47 && chunk[4] == 0x24 && chunk[5] == 0x02
    ensures var plain := DecryptDataChunk(c, key, chunk);
            var nonce: Bytes := [chunk[14], chunk[13], chunk[12], chunk[11], 0, 0, 0, 0, 0, 0, 0, 0];
            && |plain| == |chunk| - 47
            && (i < |plain| ==> plain[i] == ((chunk[15 + i] as bv8) ^ (c.keystream(key, nonce, i) as bv8)) as int)
  {
    var pkt := chunk[4..];
    assert pkt[..2] == [0x24, 0x02];
    Nonce.MakeNonce12Bytes(pkt[7..11]);
  }

  /** Every other chunk is ignored. */
  lemma OtherChunksAreEmpty(c: StreamCrypto, key: Bytes, chunk: Bytes)
    requires |key| != 32 || |chunk| < 47 || chunk[4] != 0x24 || chunk[5] != 0x02
    ensures DecryptDataChunk(c, key, chunk) == []
  {
    if |chunk| >= 6 {
      assert chunk[4..][..2] == [chunk[4], chunk[5]];
    }
  }

  /** Only frames on channel 1 carry data, and the first frame never does. */
  lemma DataOnChannelOne(c: StreamCrypto, key: Bytes, handshake: Frame, f: Frame)
    requires c.deriveKey(handshake.payload) == Some(key)
    ensures PlainOf(c, [handshake]) == []
    ensures PlainOf(c, [handshake, f]) == if f.chan == 1 then DecryptDataChunk(c, key, f.payload) else []
  {
    DataPlainOne(c, key, f);
    assert [handshake, f][1..] == [f] && [handshake][1..] == [];
  }

  /** Only wrapped chunks decrypt to anything, and they decrypt to what was wrapped. */
  lemma DataChunkExact(c: StreamCrypto, key: Bytes, chunk: Bytes, plain: Bytes)
    requires |key| == 32 && |chunk| < 0x1_0000 && plain != []
    ensures DecryptDataChunk(c, key, chunk) == plain <==>
              exists i: Item | i.Data? && ValidItem(i) :: DataPayload(c, key, i) == chunk && i.plain == plain
  {
    forall i: Item | i.Data? && ValidItem(i) && DataPayload(c, key, i) == chunk && i.plain == plain
      ensures DecryptDataChunk(c, key, chunk) == plain
    {
      DataChunkRoundTrip(c, key, i);
    }
    if DecryptDataChunk(c, key, chunk) == plain {
      var i := Unwrap(chunk, plain);
      Rewrapped(c, key, chunk, plain);
      assert DataPayload(c, key, i) == chunk;
    }
  }

  /** The parts of a data chunk. */
  function Unwrap(chunk: Bytes, plain: Bytes): Item
    requires |chunk| >= 4 + DATA_HEADER_SIZE + HMAC_TRAILER_SIZE
  {
    Data([], chunk[..4], chunk[6..11], chunk[11..15], plain, chunk[|chunk| - HMAC_TRAILER_SIZE..])
  }

  lemma Rewrapped(c: StreamCrypto, key: Bytes, chunk: Bytes, plain: Bytes)
    requires |key| == 32 && |chunk| < 0x1_0000 && plain != [] && DecryptDataChunk(c, key, chunk) == plain
    ensures |chunk| >= 4 + DATA_HEADER_SIZE + HMAC_TRAILER_SIZE
    ensures ValidItem(Unwrap(chunk, plain)) && DataPayload(c, key, Unwrap(chunk, plain)) == chunk
  {
    var n := |chunk| - HMAC_TRAILER_SIZE;
    var nonce, body := Nonce.MakeNonce12(chunk[11..15]), chunk[15..n];
    assert chunk[4..][..2] == [0x24, 0x02] == chunk[4..6];
    assert chunk[4..][7..11] == chunk[11..15];
    assert chunk[4..][DATA_HEADER_SIZE..|chunk[4..]| - HMAC_TRAILER_SIZE] == body;
    XorCancels(body, Keystream(c, key, nonce, |body|));
    assert ChaCha20(c, key, nonce, plain) == body;
    assert chunk == chunk[..4] + chunk[4..6] + chunk[6..11] + chunk[11..15] + body + chunk[n..];
  }

  lemma {:induction false} ItemsPlain(c: StreamCrypto, key: Bytes, items: seq<Item>)
    requires |key| == 32 && forall k | 0 <= k < |items| :: ValidItem(items[k])
    ensures DataPlain(c, key, FramesSent(SendItems(c, key, items))) == PlainSent(items)
    decreases |items|
  {
    if items != [] {
      var first := SendItem(c, key, items[0]).frame;
      var rest := SendItems(c, key, items[1..]);
      assert SendItems(c, key, items)[1..] == rest;
      ItemsPlain(c, key, items[1..]);
      DataPlainConcat(c, key, [first], FramesSent(rest));
      DataPlainOne(c, key, first);
      if items[0].Data? {
        DataChunkRoundTrip(c, key, items[0]);
      }
    }
  }

  /** End to end: the output for a sender's stream is the plaintexts' concatenation from the sync point on. */
  lemma StreamRoundTrip(c: StreamCrypto, handshake: Sent, key: Bytes, items: seq<Item>, tail: Bytes)
    requires Sendable(handshake) && c.deriveKey(handshake.frame.payload) == Some(key) && |key| == 32
    requires forall k | 0 <= k < |items| :: ValidItem(items[k])
    requires Stuck(tail)
    ensures Reference(c, EncodeAll([handshake] + SendItems(c, key, items)) + tail)
         == Gate(PlainSent(items), MAX_PACK_LOOKBACK)
  {
    var sent := [handshake] + SendItems(c, key, items);
    EncodedFramesRecovered(sent, tail);
    assert sent[1..] == SendItems(c, key, items);
    var frames := FramesSent(sent);
    assert frames[1..] == FramesSent(SendItems(c, key, items));
    ItemsPlain(c, key, items);
    assert Parse(EncodeAll(sent) + tail).frames == frames;
  }
}
