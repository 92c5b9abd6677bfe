/** The keyframe gate: which suffix of the plaintext a decoder may emit (decoder.py:36-67, 229-264). */
module KeyframeGate {
  import opened ByteStrings
  import opened Markers

  const MAX_PACK_LOOKBACK := 64 * 1024
  const MAX_PRE_KEYFRAME_BUF := 2 * 1024 * 1024
  const PRE_KEYFRAME_KEEP := MAX_PRE_KEYFRAME_BUF / 2

  /** The longest marker has six bytes, so at most five of them can be missing their last byte. */
  const PARTIAL_MARKER := 5

  /** Where output starts in the whole plaintext ``p``, or -1 while there is no keyframe. */
  function SyncPoint(p: Bytes, lookback: nat): (r: int)
    ensures -1 <= r < |p|
    ensures r == -1 <==> FirstKeyframe(p) == -1
    ensures r <= FirstKeyframe(p)
  {
    var k := FirstKeyframe(p);
    if k < 0 then -1
    else
      var pack := LastPack(p, k);
      if pack >= 0 && k - pack <= lookback then pack else k
  }

  /** The reference output for plaintext ``p``: its suffix from the sync point. */
  function Gate(p: Bytes, lookback: nat): Bytes
  {
    var k := SyncPoint(p, lookback);
    if k < 0 then [] else p[k..]
  }

  predicate IsSyncStart(s: Bytes)
  {
    PackAt(s, 0) || KeyframeAt(s, 0)
  }

  predicate HasKeyframe(s: Bytes)
  {
    LastKeyframe(s) >= 0
  }

  /** The first marker seen incrementally is the first marker of every longer plaintext. */
  lemma FirstKeyframeStable(p: Bytes, x: Bytes)
    requires FirstKeyframe(p) >= 0
    ensures FirstKeyframe(p + x) == FirstKeyframe(p)
  {
    var k := FirstKeyframe(p);
    MarkersStay(p, x, k);
    forall i | i < k ensures !KeyframeAt(p + x, i) {
      assert !KeyframeAt(p, i);
    }
    OffsetsAreUnique(p + x, 0, k);
  }

  lemma LastPackStable(p: Bytes, x: Bytes, end: nat)
    requires end <= |p|
    ensures LastPack(p + x, end) == LastPack(p, end)
  {
    var k := LastPack(p, end);
    forall i | i + 4 <= end ensures PackAt(p + x, i) == PackAt(p, i) {
      MarkersStay(p, x, i);
    }
    OffsetsAreUnique(p + x, end, k);
  }

  /** Once synced, everything appended to the plaintext is appended to the output. */
  lemma GateExtends(p: Bytes, x: Bytes, lookback: nat)
    requires FirstKeyframe(p) >= 0
    ensures SyncPoint(p + x, lookback) == SyncPoint(p, lookback)
    ensures Gate(p + x, lookback) == Gate(p, lookback) + x
  {
    FirstKeyframeStable(p, x);
    LastPackStable(p, x, FirstKeyframe(p));
  }

  lemma GateMonotone(p: Bytes, q: Bytes, lookback: nat)
    requires p <= q
    ensures Gate(p, lookback) <= Gate(q, lookback)
  {
    if FirstKeyframe(p) >= 0 {
      assert q == p + q[|p|..];
      GateExtends(p, q[|p|..], lookback);
    }
  }

  /** Output is empty or starts with a pack header or marker, and then holds the first keyframe. */
  lemma GateShape(p: Bytes, lookback: nat)
    ensures Gate(p, lookback) == [] <==> FirstKeyframe(p) == -1
    ensures Gate(p, lookback) != [] ==> IsSyncStart(Gate(p, lookback)) && HasKeyframe(Gate(p, lookback))
    ensures Gate(p, lookback) != [] ==>
              var k := FirstKeyframe(Gate(p, lookback));
              && k >= 0 && |p| - |Gate(p, lookback)| + k == FirstKeyframe(p)
              && (k == 0 || (PackAt(Gate(p, lookback), 0) && k <= lookback))
  {
    var k := FirstKeyframe(p);
    if k >= 0 {
      var start := SyncPoint(p, lookback);
      MarkersShift(p, start, 0);
      MarkersShift(p, start, k - start);
      forall i | i < k - start ensures !KeyframeAt(p[start..], i) {
        if 0 <= i { MarkersShift(p, start, i); }
      }
      OffsetsAreUnique(p[start..], 0, k - start);
      KeyframeMeansLast(p[start..], k - start);
    }
  }

  /** The sync point is the nearest pack header not too far before the first marker, else the marker itself. */
  lemma SyncPointExact(p: Bytes, lookback: nat, r: int)
    requires FirstKeyframe(p) >= 0
    ensures var k := FirstKeyframe(p);
            r == SyncPoint(p, lookback) <==>
              || (PackAt(p, r) && r + 4 <= k && k - r <= lookback && forall i | r < i && i + 4 <= k :: !PackAt(p, i))
              || (r == k && forall i | k - lookback <= i && i + 4 <= k :: !PackAt(p, i))
  {
    var k := FirstKeyframe(p);
    var pack := LastPack(p, k);
    assert KeyframeAt(p, k);
    assert pack >= 0 ==> PackAt(p, pack) && pack + 4 <= k;
    if PackAt(p, r) && r + 4 <= k && forall i | r < i && i + 4 <= k :: !PackAt(p, i) {
      OffsetsAreUnique(p, k, r);
    }
    assert r == k ==> !PackAt(p, r);
  }

  /** The source's lookback in bytes: the last pack header before the first marker is used up to 65536 bytes away. */
  lemma LookbackInBytes(p: Bytes, pack: int)
    requires FirstKeyframe(p) >= 0 && PackAt(p, pack) && pack + 4 <= FirstKeyframe(p)
    requires forall i | pack < i && i + 4 <= FirstKeyframe(p) :: !PackAt(p, i)
    ensures var k := FirstKeyframe(p);
            Gate(p, MAX_PACK_LOOKBACK) == if k - pack <= 65536 then p[pack..] else p[k..]
  {
    OffsetsAreUnique(p, FirstKeyframe(p), pack);
  }

  // The bounded accumulator.

  /** ``pending`` may stand for the marker-free plaintext ``p``: nothing was cut, or ``keep`` bytes are left. */
  ghost predicate StandsFor(pending: Bytes, p: Bytes, keep: nat)
  {
    && |pending| <= |p|
    && pending == p[|p| - |pending|..]
    && (pending == p || keep <= |pending|)
  }

  lemma StandsForGrown(pending: Bytes, p: Bytes, x: Bytes, keep: nat)
    requires StandsFor(pending, p, keep)
    ensures StandsFor(pending + x, p + x, keep)
  {
    var d := |p| - |pending|;
    assert (p + x)[d..] == p[d..] + x;
  }

  lemma StandsForCut(pending: Bytes, p: Bytes, keep: nat)
    requires StandsFor(pending, p, keep) && keep <= |pending|
    ensures StandsFor(pending[|pending| - keep..], p, keep)
  {
    var d := |p| - |pending|;
    assert p[d..][|pending| - keep..] == p[|p| - keep..];
  }

  /** No marker of the longer plaintext starts where the shortened accumulator cannot see it. */
  lemma NoMarkerBeforePending(pending: Bytes, p: Bytes, x: Bytes, keep: nat)
    requires StandsFor(pending, p, keep) && keep >= PARTIAL_MARKER
    requires FirstKeyframe(p) == -1 && FirstKeyframe(p + x) >= 0
    ensures FirstKeyframe(p + x) >= |p| - PARTIAL_MARKER && FirstKeyframe(p + x) >= |p| - |pending|
  {
    var k := FirstKeyframe(p + x);
    MarkersStay(p, x, k);
    assert !KeyframeAt(p, k);
  }

  lemma ShiftedFirst(whole: Bytes, d: nat)
    requires d <= |whole|
    requires FirstKeyframe(whole) == -1 || d <= FirstKeyframe(whole)
    ensures FirstKeyframe(whole[d..]) == if FirstKeyframe(whole) == -1 then -1 else FirstKeyframe(whole) - d
  {
    var k := FirstKeyframe(whole);
    var local := if k == -1 then -1 else k - d;
    assert k != -1 ==> KeyframeAt(whole, k);
    forall i | 0 <= i ensures KeyframeAt(whole[d..], i) == KeyframeAt(whole, d + i) {
      MarkersShift(whole, d, i);
    }
    assert IsFirstKeyframe(whole[d..], local);
    OffsetsAreUnique(whole[d..], 0, local);
  }

  /** Searching the shortened accumulator finds the same marker and the same start as the whole plaintext. */
  lemma PendingRefines(pending: Bytes, p: Bytes, x: Bytes, keep: nat, lookback: nat)
    requires StandsFor(pending, p, keep) && keep >= lookback + PARTIAL_MARKER
    requires FirstKeyframe(p) == -1
    ensures FirstKeyframe(pending + x) == -1 <==> FirstKeyframe(p + x) == -1
    ensures FirstKeyframe(p + x) >= 0 ==> FirstKeyframe(pending + x) + (|p| - |pending|) == FirstKeyframe(p + x)
    ensures Gate(pending + x, lookback) == Gate(p + x, lookback)
  {
    hide FirstKeyframe, LastPack, KeyframeAt, PackAt;
    var d, whole := |p| - |pending|, p + x;
    assert pending + x == whole[d..];
    var k := FirstKeyframe(whole);
    if k >= 0 {
      NoMarkerBeforePending(pending, p, x, keep);
      ShiftedFirst(whole, d);
      PendingFindsPack(whole, d, k);
      TailOfTail(whole, d, SyncPoint(whole[d..], lookback));
    } else {
      ShiftedFirst(whole, d);
    }
  }

  lemma PendingFindsPack(whole: Bytes, d: nat, k: int)
    requires d <= k <= |whole|
    ensures var pack := LastPack(whole, k);
            LastPack(whole[d..], k - d) == if pack >= d then pack - d else -1
  {
    var pack := LastPack(whole, k);
    var local := if pack >= d then pack - d else -1;
    forall i | 0 <= i ensures PackAt(whole[d..], i) == PackAt(whole, d + i) {
      MarkersShift(whole, d, i);
    }
    forall i | local < i && i + 4 <= k - d ensures !PackAt(whole[d..], i) {
      if 0 <= i { assert !PackAt(whole, d + i); }
    }
    OffsetsAreUnique(whole[d..], k - d, local);
  }

  // The gate's state, with the real constants.

  /** Having seen ``plain``, the gate has emitted ``emitted`` and still holds ``pending``. */
  ghost predicate GateState(plain: Bytes, started: bool, pending: Bytes, emitted: Bytes)
  {
    && started == (FirstKeyframe(plain) >= 0)
    && emitted == Gate(plain, MAX_PACK_LOOKBACK)
    && (if started then pending == []
        else StandsFor(pending, plain, PRE_KEYFRAME_KEEP) && |pending| <= MAX_PRE_KEYFRAME_BUF)
  }

  lemma GateStartedHoldsNothing(plain: Bytes, pending: Bytes, emitted: Bytes)
    requires GateState(plain, true, pending, emitted)
    ensures pending == []
  {
  }

  lemma GateStaysOpen(plain: Bytes, emitted: Bytes, x: Bytes)
    requires GateState(plain, true, [], emitted)
    ensures GateState(plain + x, true, [], emitted + x)
  {
    GateExtends(plain, x, MAX_PACK_LOOKBACK);
    FirstKeyframeStable(plain, x);
  }

  lemma GateOpens(plain: Bytes, pending: Bytes, emitted: Bytes, x: Bytes, start: nat)
    requires GateState(plain, false, pending, emitted) && start == SyncPoint(pending + x, MAX_PACK_LOOKBACK)
    ensures emitted == [] && GateState(plain + x, true, [], (pending + x)[start..])
  {
    PendingRefines(pending, plain, x, PRE_KEYFRAME_KEEP, MAX_PACK_LOOKBACK);
  }

  lemma GateWaits(plain: Bytes, pending: Bytes, emitted: Bytes, x: Bytes)
    requires GateState(plain, false, pending, emitted) && SyncPoint(pending + x, MAX_PACK_LOOKBACK) == -1
    ensures var held := pending + x;
            GateState(plain + x, false,
                      if |held| > MAX_PRE_KEYFRAME_BUF then held[|held| - PRE_KEYFRAME_KEEP..] else held, emitted)
  {
    hide FirstKeyframe, SyncPoint, StandsFor;
    PendingRefines(pending, plain, x, PRE_KEYFRAME_KEEP, MAX_PACK_LOOKBACK);
    StandsForGrown(pending, plain, x, PRE_KEYFRAME_KEEP);
    if |pending + x| > MAX_PRE_KEYFRAME_BUF {
      StandsForCut(pending + x, plain + x, PRE_KEYFRAME_KEEP);
    }
  }

  lemma GateAtStart()
    ensures GateState([], false, [], [])
  {
  }

  /** The real constants leave that much room. */
  lemma RealConstantsSuffice()
    ensures MAX_PRE_KEYFRAME_BUF >= PRE_KEYFRAME_KEEP == 1048576 >= MAX_PACK_LOOKBACK + PARTIAL_MARKER == 65536 + 5
  {
  }

  /** One byte less is too little: a pack header exactly ``lookback`` before a marker that lacks its last byte. */
  lemma KeepIsTight(lookback: nat) returns (p: Bytes, x: Bytes)
    requires lookback >= 4
    ensures |p| == lookback + PARTIAL_MARKER && FirstKeyframe(p) == -1
    ensures var pending := p[1..];
            StandsFor(pending, p, lookback + PARTIAL_MARKER - 1) && Gate(pending + x, lookback) != Gate(p + x, lookback)
  {
    var filler: Bytes := seq(lookback - 4, _ => 0xFF);
    p := MPEG_PS_PACK + filler + HEVC_VPS_4B[..5];
    x := [1];
    var w := p + x;
    assert w == MPEG_PS_PACK + filler + HEVC_VPS_4B;
    forall i ensures !KeyframeAt(p, i) {
    }
    OffsetsAreUnique(p, 0, -1);
    forall i | i < lookback ensures !KeyframeAt(w, i) {
    }
    OffsetsAreUnique(w, 0, lookback);
    forall i | 0 < i && i + 4 <= lookback ensures !PackAt(w, i) {
    }
    OffsetsAreUnique(w, lookback, 0);
    assert |Gate(w, lookback)| == |w|;
    assert |Gate(p[1..] + x, lookback)| < |w|;
  }
}
