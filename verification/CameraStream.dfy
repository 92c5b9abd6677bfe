/** A camera that sends a well-formed stream: a handshake frame that yields a key, then wrapped plaintexts. */
module CameraStream {
  import opened ByteStrings
  import opened Frames
  import opened KeyframeGate
  import opened Markers
  import opened StreamSpec
  import RelayBuffer

  /** The handshake frame yields a ChaCha20 key. */
  ghost predicate Camera(c: StreamCrypto, handshake: Sent, key: Bytes)
  {
    Sendable(handshake) && c.deriveKey(handshake.frame.payload) == Some(key) && |key| == 32
  }

  predicate AllValid(items: seq<Item>)
  {
    forall k | 0 <= k < |items| :: ValidItem(items[k])
  }

  ghost function CameraWire(c: StreamCrypto, handshake: Sent, key: Bytes, items: seq<Item>): Bytes
    requires Camera(c, handshake, key) && AllValid(items)
  {
    EncodeAll([handshake] + SendItems(c, key, items))
  }

  lemma CameraOutput(c: StreamCrypto, handshake: Sent, key: Bytes, items: seq<Item>)
    requires Camera(c, handshake, key) && AllValid(items)
    ensures Reference(c, CameraWire(c, handshake, key, items)) == Gate(PlainSent(items), MAX_PACK_LOOKBACK)
  {
    hide Reference, Gate;
    StreamRoundTrip(c, handshake, key, items, []);
    var wire := CameraWire(c, handshake, key, items);
    assert wire + [] == wire;
  }

  /** A small frame of video. */
  function Video(plain: Bytes): (i: Item)
    ensures i.Data? && i.plain == plain && (|plain| <= 40000 ==> ValidItem(i))
  {
    Data([], [0, 0, 0, 0], [0, 0, 0, 0, 0], [1, 2, 3, 4], plain, seq<byte>(HMAC_TRAILER_SIZE, _ => 0))
  }

  lemma {:induction false} EncodeAllSnoc(a: seq<Sent>, b: Sent)
    requires AllSendable(a) && Sendable(b)
    ensures AllSendable(a + [b]) && EncodeAll(a + [b]) == EncodeAll(a) + (b.junk + EncodeFrame(b.frame))
    decreases |a|
  {
    hide EncodeFrame;
    if a == [] {
      assert a + [b] == [b];
    } else {
      EncodeAllSnoc(a[1..], b);
      assert (a + [b])[1..] == a[1..] + [b] && (a + [b])[0] == a[0];
      assert Sendable(a[0]);
      Associative(a[0].junk + EncodeFrame(a[0].frame), EncodeAll(a[1..]), b.junk + EncodeFrame(b.frame));
    }
  }

  lemma {:induction false} ItemsSnoc(c: StreamCrypto, key: Bytes, items: seq<Item>, plain: Bytes)
    requires AllValid(items) && |plain| <= 40000
    ensures SendItems(c, key, items + [Video(plain)]) == SendItems(c, key, items) + [SendItem(c, key, Video(plain))]
    ensures PlainSent(items + [Video(plain)]) == PlainSent(items) + plain
    decreases |items|
  {
    hide SendItem, Video;
    var all := items + [Video(plain)];
    if items == [] {
      assert all[0] == Video(plain) && all[1..] == [];
    } else {
      assert all[0] == items[0] && all[1..] == items[1..] + [Video(plain)];
      ItemsSnoc(c, key, items[1..], plain);
    }
  }

  /** Once output has begun, one more frame of video adds its plaintext. */
  lemma VideoRead(c: StreamCrypto, handshake: Sent, key: Bytes, items: seq<Item>, plain: Bytes) returns (raw: Bytes)
    requires Camera(c, handshake, key) && AllValid(items) && |plain| <= 40000
    requires FirstKeyframe(PlainSent(items)) >= 0
    ensures IsChunk(raw)
    ensures CameraWire(c, handshake, key, items + [Video(plain)]) == CameraWire(c, handshake, key, items) + raw
    ensures Increment(c, CameraWire(c, handshake, key, items), raw) == plain
  {
    hide Reference, Gate, SendItem, EncodeFrame;
    var sent := SendItem(c, key, Video(plain));
    raw := VideoFrame(c, key, plain);
    ItemsSnoc(c, key, items, plain);
    EncodeAllSnoc([handshake] + SendItems(c, key, items), sent);
    assert [handshake] + SendItems(c, key, items + [Video(plain)]) == [handshake] + SendItems(c, key, items) + [sent];
    var wire := CameraWire(c, handshake, key, items);
    CameraOutput(c, handshake, key, items);
    CameraOutput(c, handshake, key, items + [Video(plain)]);
    GateExtends(PlainSent(items), plain, MAX_PACK_LOOKBACK);
    ReferenceExtends(c, wire, raw);
    assert Reference(c, wire + raw)[|Reference(c, wire)|..] == plain == Increment(c, wire, raw);
  }

  lemma VideoFrame(c: StreamCrypto, key: Bytes, plain: Bytes) returns (raw: Bytes)
    requires |plain| <= 40000
    ensures var sent := SendItem(c, key, Video(plain));
            Sendable(sent) && raw == sent.junk + EncodeFrame(sent.frame) && IsChunk(raw)
  {
    var sent := SendItem(c, key, Video(plain));
    raw := sent.junk + EncodeFrame(sent.frame);
  }

  // Long groups.

  const FILLER_SIZE := 32768

  function Filler(): (p: Bytes)
    ensures |p| == FILLER_SIZE && forall i | 0 <= i < |p| :: p[i] == 0x80
  {
    seq<byte>(FILLER_SIZE, _ => 0x80)
  }

  /** A keyframe marker and ``n`` frames of video without one. */
  function LongGroup(n: nat): (items: seq<Item>)
    ensures AllValid(items)
  {
    if n == 0 then [Video(H264_SPS_3B)] else LongGroup(n - 1) + [Video(Filler())]
  }

  /** The marker, and then nothing but the filler byte. */
  predicate OneMarker(p: Bytes)
  {
    H264_SPS_3B <= p && forall i | 4 <= i < |p| :: p[i] == 0x80
  }

  lemma {:induction false} LongGroupPlain(c: StreamCrypto, key: Bytes, n: nat)
    ensures OneMarker(PlainSent(LongGroup(n))) && |PlainSent(LongGroup(n))| == 4 + n * FILLER_SIZE
  {
    hide Video, Filler;
    if n == 0 {
      var items := [Video(H264_SPS_3B)];
      assert items[1..] == [] && PlainSent(items) == H264_SPS_3B + [];
    } else {
      LongGroupPlain(c, key, n - 1);
      ItemsSnoc(c, key, LongGroup(n - 1), Filler());
    }
  }

  lemma OneMarkerIsOneGroup(p: Bytes)
    requires OneMarker(p)
    ensures FirstKeyframe(p) == LastKeyframe(p) == 0
    ensures Gate(p, MAX_PACK_LOOKBACK) == p && RelayBuffer.Snapshot(p) == p
  {
    var m := H264_SPS_3B;
    assert p[0] == m[0] && p[1] == m[1] && p[2] == m[2] && p[3] == m[3];
    assert KeyframeAt(p, 0);
    forall i | 0 < i ensures !KeyframeAt(p, i) {}
    OffsetsAreUnique(p, 0, 0);
  }

  // No group at all.

  /** There is no output exactly as long as no marker was sent, however much video that was. */
  lemma MarkerFreeIsSilent(c: StreamCrypto, handshake: Sent, key: Bytes, items: seq<Item>)
    requires Camera(c, handshake, key) && AllValid(items)
    ensures Reference(c, CameraWire(c, handshake, key, items)) == [] <==> FirstKeyframe(PlainSent(items)) == -1
  {
    hide Reference;
    CameraOutput(c, handshake, key, items);
    GateShape(PlainSent(items), MAX_PACK_LOOKBACK);
  }

  /** ``n`` frames of video without a marker. */
  function MarkerFree(n: nat): (items: seq<Item>)
    ensures AllValid(items)
  {
    if n == 0 then [] else MarkerFree(n - 1) + [Video(Filler())]
  }

  lemma {:induction false} MarkerFreePlain(c: StreamCrypto, key: Bytes, n: nat)
    ensures var p := PlainSent(MarkerFree(n)); |p| == n * FILLER_SIZE && forall i | 0 <= i < |p| :: p[i] == 0x80
  {
    hide Video, Filler;
    if n > 0 {
      MarkerFreePlain(c, key, n - 1);
      ItemsSnoc(c, key, MarkerFree(n - 1), Filler());
    }
  }

  /** More than 2 MB of video past the cap of the accumulator, and still nothing is emitted. */
  lemma SilentPastTheCap(c: StreamCrypto, handshake: Sent, key: Bytes) returns (items: seq<Item>)
    requires Camera(c, handshake, key)
    ensures AllValid(items) && |PlainSent(items)| > 2097152
    ensures Reference(c, CameraWire(c, handshake, key, items)) == []
  {
    hide Reference, CameraWire, MarkerFree;
    items := MarkerFree(65);
    MarkerFreePlain(c, key, 65);
    var p := PlainSent(items);
    forall i ensures !KeyframeAt(p, i) {}
    OffsetsAreUnique(p, 0, -1);
    MarkerFreeIsSilent(c, handshake, key, items);
  }
}
