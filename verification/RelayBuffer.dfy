/** The relay's warm-session buffer: appends, trims and snapshots (tcp_relay.py:621-688). */
module RelayBuffer {
  import opened ByteStrings
  import opened Markers
  import opened KeyframeGate

  const BUFFER_TRIM_TARGET := 4 * 1024 * 1024
  const TRIM_MIN_OFFSET := 1024
  const KEYFRAME_MIN_TAIL_BYTES := 64 * 1024

  /** Where the last keyframe's group starts: its pack header if there is one, else the bare marker. */
  function GroupStart(s: Bytes): (r: int)
    requires HasKeyframe(s)
    ensures 0 <= r <= LastKeyframe(s)
  {
    var kf := LastKeyframe(s);
    var pack := LastPack(s, kf);
    if pack >= 0 then pack else kf
  }

  function Snapshot(s: Bytes): Bytes
  {
    if s == [] then [] else if !HasKeyframe(s) then s else s[GroupStart(s)..]
  }

  function Trimmed(s: Bytes): Bytes
  {
    if LastKeyframe(s) < TRIM_MIN_OFFSET then s else s[GroupStart(s)..]
  }

  /** Append, then trim past the target size, as one pump step does. */
  function Absorbed(buffer: Bytes, plain: Bytes): Bytes
  {
    var b := buffer + plain;
    if |b| > BUFFER_TRIM_TARGET then Trimmed(b) else b
  }

  /** Enough bytes follow the last keyframe marker to wake waiting viewers. */
  predicate KeyframeComplete(s: Bytes)
  {
    HasKeyframe(s) && |s| - LastKeyframe(s) >= KEYFRAME_MIN_TAIL_BYTES
  }

  /** The source's wake-up size in bytes: 65536 behind the last marker, the marker included. */
  lemma WakesAt64K(s: Bytes, k: nat)
    requires IsLastKeyframe(s, k)
    ensures KeyframeComplete(s) <==> |s| >= k + 65536
  {
    OffsetsAreUnique(s, 0, k);
  }

  /** The source's trim sizes in bytes: past 4194304, and only with the last marker at 1024 or later. */
  lemma TrimsAt4M(buffer: Bytes, plain: Bytes)
    ensures var b := buffer + plain;
            Absorbed(buffer, plain) == if |b| > 4194304 && LastKeyframe(b) >= 1024 then Snapshot(b) else b
  {
    TrimLeavesSnapshot(buffer + plain);
  }

  // The trimmed buffer is a cache of the untrimmed session log.

  ghost predicate NoPackBefore(log: Bytes, cut: int)
  {
    forall i | i + 4 <= cut :: !PackAt(log, i)
  }

  /** Everything before ``cut`` may be forgotten. */
  ghost predicate CutOk(log: Bytes, cut: nat)
  {
    || cut == 0
    || (PackAt(log, cut) && cut + 4 <= LastKeyframe(log))
    || (ShortKeyframeAt(log, cut) && NoPackBefore(log, cut))
  }

  ghost predicate IsCacheOf(buffer: Bytes, log: Bytes)
  {
    && |buffer| <= |log|
    && buffer == log[|log| - |buffer|..]
    && CutOk(log, |log| - |buffer|)
  }

  lemma EmptyCache()
    ensures IsCacheOf([], [])
  {
  }

  lemma LastKeyframeGrows(log: Bytes, x: Bytes)
    ensures LastKeyframe(log) <= LastKeyframe(log + x)
  {
    var k := LastKeyframe(log);
    if k >= 0 {
      MarkersStay(log, x, k);
      KeyframeMeansLast(log + x, k);
    }
  }

  lemma CacheGrows(buffer: Bytes, log: Bytes, x: Bytes)
    requires IsCacheOf(buffer, log)
    ensures IsCacheOf(buffer + x, log + x)
  {
    var cut := |log| - |buffer|;
    assert (log + x)[cut..] == log[cut..] + x;
    LastKeyframeGrows(log, x);
    MarkersStay(log, x, cut);
    if NoPackBefore(log, cut) {
      forall i | i + 4 <= cut ensures !PackAt(log + x, i) {
        MarkersStay(log, x, i);
      }
    }
  }

  /** A cut never lies behind the last keyframe, so buffer and log agree on it. */
  lemma CacheLastKeyframe(buffer: Bytes, log: Bytes)
    requires IsCacheOf(buffer, log)
    ensures HasKeyframe(buffer) <==> HasKeyframe(log)
    ensures HasKeyframe(log) ==> LastKeyframe(buffer) + (|log| - |buffer|) == LastKeyframe(log)
    ensures !HasKeyframe(log) ==> buffer == log
    ensures buffer == [] <==> log == []
  {
    var cut := |log| - |buffer|;
    var k := LastKeyframe(log);
    assert ShortKeyframeAt(log, cut) ==> KeyframeAt(log, cut);
    forall i | 0 <= i ensures KeyframeAt(buffer, i) == KeyframeAt(log, cut + i) {
      MarkersShift(log, cut, i);
    }
    if k >= 0 {
      assert cut <= k;
      assert KeyframeAt(buffer, k - cut);
      forall i | k - cut < i ensures !KeyframeAt(buffer, i) {}
      OffsetsAreUnique(buffer, 0, k - cut);
    } else {
      forall i ensures !KeyframeAt(buffer, i) {}
      OffsetsAreUnique(buffer, 0, -1);
    }
  }

  /** No pack header straddles or precedes a cut that the search for the group start would have used. */
  lemma CacheGroupStart(buffer: Bytes, log: Bytes)
    requires IsCacheOf(buffer, log) && HasKeyframe(log)
    ensures HasKeyframe(buffer) && GroupStart(buffer) + (|log| - |buffer|) == GroupStart(log)
  {
    var cut := |log| - |buffer|;
    CacheLastKeyframe(buffer, log);
    var k := LastKeyframe(log);
    var pack := LastPack(log, k);
    forall i | 0 <= i ensures PackAt(buffer, i) == PackAt(log, cut + i) {
      MarkersShift(log, cut, i);
    }
    if pack >= cut {
      forall i | pack - cut < i && i + 4 <= k - cut ensures !PackAt(buffer, i) {
        if 0 <= i { assert !PackAt(log, cut + i); }
      }
      OffsetsAreUnique(buffer, k - cut, pack - cut);
    } else {
      NoPackAtCut(log, cut, pack);
      forall i | i + 4 <= k - cut ensures !PackAt(buffer, i) {
        if 0 <= i { assert !PackAt(log, cut + i); }
      }
      OffsetsAreUnique(buffer, k - cut, -1);
    }
  }

  /** If the last pack header before the last keyframe is not at or behind the cut, there is none at all. */
  lemma NoPackAtCut(log: Bytes, cut: nat, pack: int)
    requires CutOk(log, cut) && HasKeyframe(log) && pack == LastPack(log, LastKeyframe(log)) && pack < cut
    ensures pack == -1
  {
    assert pack >= 0 ==> PackAt(log, pack);
  }

  /** Snapshots and the wake-up test do not see that the buffer was trimmed. */
  lemma SnapshotAgrees(buffer: Bytes, log: Bytes)
    requires IsCacheOf(buffer, log)
    ensures Snapshot(buffer) == Snapshot(log)
    ensures KeyframeComplete(buffer) == KeyframeComplete(log)
    ensures buffer == [] <==> log == []
  {
    CacheLastKeyframe(buffer, log);
    var cut := |log| - |buffer|;
    if HasKeyframe(log) {
      CacheGroupStart(buffer, log);
      assert buffer[GroupStart(buffer)..] == log[cut + GroupStart(buffer)..];
    }
  }

  lemma CacheTrimmed(buffer: Bytes, log: Bytes)
    requires IsCacheOf(buffer, log)
    ensures IsCacheOf(Trimmed(buffer), log)
    ensures buffer != [] ==> Trimmed(buffer) != []
  {
    if LastKeyframe(buffer) >= TRIM_MIN_OFFSET {
      CacheLastKeyframe(buffer, log);
      CacheGroupStart(buffer, log);
      var cut, start := |log| - |buffer|, GroupStart(log);
      assert Trimmed(buffer) == log[start..];
      var k := LastKeyframe(log);
      if LastPack(log, k) >= 0 {
        assert PackAt(log, start);
      } else {
        LastKeyframeIsShort(log);
        forall i | i + 4 <= start ensures !PackAt(log, i) {}
      }
    }
  }

  /** A trim either leaves the buffer alone or leaves exactly what a viewer would be given. */
  lemma TrimLeavesSnapshot(b: Bytes)
    ensures Trimmed(b) == if LastKeyframe(b) < TRIM_MIN_OFFSET then b else Snapshot(b)
    ensures Snapshot(Trimmed(b)) == Snapshot(b)
  {
    if HasKeyframe(b) {
      assert IsCacheOf(b, b);
      CacheTrimmed(b, b);
      SnapshotAgrees(Trimmed(b), b);
    }
  }

  lemma CacheAbsorbed(buffer: Bytes, log: Bytes, plain: Bytes)
    requires IsCacheOf(buffer, log)
    ensures IsCacheOf(Absorbed(buffer, plain), log + plain)
  {
    CacheGrows(buffer, log, plain);
    CacheTrimmed(buffer + plain, log + plain);
  }

  /** A snapshot of a log with a keyframe: from the last group start on, synced, with the last keyframe inside. */
  lemma SnapshotShape(log: Bytes)
    requires HasKeyframe(log)
    ensures var s := Snapshot(log);
            && s != [] && HasKeyframe(s) && (PackAt(s, 0) || ShortKeyframeAt(s, 0))
            && |log| - |s| + LastKeyframe(s) == LastKeyframe(log)
            && (forall i | 0 < i && i + 4 <= LastKeyframe(s) :: !PackAt(s, i))
            && (PackAt(s, 0) || (LastKeyframe(s) == 0 && NoPackBefore(log, LastKeyframe(log))))
  {
    var start, k := GroupStart(log), LastKeyframe(log);
    var s := log[start..];
    LastKeyframeIsShort(log);
    MarkersShift(log, start, 0);
    MarkersShift(log, start, k - start);
    forall i | k - start < i ensures !KeyframeAt(s, i) {
      MarkersShift(log, start, i);
    }
    OffsetsAreUnique(s, 0, k - start);
    forall i | 0 < i && i + 4 <= k - start ensures !PackAt(s, i) {
      MarkersShift(log, start, i);
    }
  }

  // The target size.

  /** The buffer is small, or nothing but the last group, or its last marker lies too low for a trim. */
  predicate Lean(buffer: Bytes)
  {
    |buffer| <= BUFFER_TRIM_TARGET || buffer == Snapshot(buffer) || LastKeyframe(buffer) < TRIM_MIN_OFFSET
  }

  lemma AbsorbedIsLean(buffer: Bytes, plain: Bytes)
    ensures Lean(Absorbed(buffer, plain))
  {
    TrimLeavesSnapshot(buffer + plain);
  }

  /**
   What the size of a lean buffer says about the whole log: it holds at least the last group, and past the target size
   it is that group, or fewer than 1024 bytes more, all of them before the last marker.
   */
  lemma LeanCache(buffer: Bytes, log: Bytes)
    requires IsCacheOf(buffer, log) && Lean(buffer)
    ensures |Snapshot(log)| <= |buffer|
    ensures |buffer| <= BUFFER_TRIM_TARGET || |buffer| < |Snapshot(log)| + TRIM_MIN_OFFSET
    ensures |buffer| > BUFFER_TRIM_TARGET ==>
              buffer == Snapshot(log) || |log| - LastKeyframe(log) > BUFFER_TRIM_TARGET - TRIM_MIN_OFFSET
  {
    SnapshotAgrees(buffer, log);
    CacheLastKeyframe(buffer, log);
    SnapshotIsSuffix(buffer);
  }

  /**
   When a pump step leaves more than the target size, in terms of the whole log: the last group alone is larger, or the
   bytes not yet forgotten are too many and the last marker lies too low among them.
   */
  lemma TargetExceeded(buffer: Bytes, log: Bytes, plain: Bytes)
    requires IsCacheOf(buffer, log)
    ensures var whole, forgotten := log + plain, |log| - |buffer|;
            |Absorbed(buffer, plain)| > BUFFER_TRIM_TARGET <==>
              || |Snapshot(whole)| > BUFFER_TRIM_TARGET
              || (|whole| - forgotten > BUFFER_TRIM_TARGET && LastKeyframe(whole) - forgotten < TRIM_MIN_OFFSET)
  {
    CacheGrows(buffer, log, plain);
    CacheLastKeyframe(buffer + plain, log + plain);
    SnapshotAgrees(buffer + plain, log + plain);
    SnapshotIsSuffix(buffer + plain);
    TrimLeavesSnapshot(buffer + plain);
  }

  /** A decoder's output so far: nothing, or synced with a whole keyframe marker inside. */
  predicate Synced(x: Bytes)
  {
    x == [] || (IsSyncStart(x) && HasKeyframe(x))
  }

  /** A snapshot of a synced session starts at a pack header or a marker with the three-byte start code. */
  predicate StartsGroup(x: Bytes)
  {
    (PackAt(x, 0) || ShortKeyframeAt(x, 0)) && HasKeyframe(x)
  }

  lemma SnapshotIsSuffix(x: Bytes)
    ensures |Snapshot(x)| <= |x| && Snapshot(x) == x[|x| - |Snapshot(x)|..]
  {
  }

  lemma SyncedSnapshot(buffer: Bytes, x: Bytes)
    requires IsCacheOf(buffer, x) && Synced(x)
    ensures var burst := Snapshot(buffer);
            && burst == Snapshot(x) && |burst| <= |x| && burst == x[|x| - |burst|..]
            && (burst == [] <==> x == []) && (burst != [] ==> StartsGroup(burst))
  {
    SnapshotAgrees(buffer, x);
    SnapshotIsSuffix(x);
    if x != [] {
      SnapshotShape(x);
    }
  }

  // Whole runs of appends and trims.

  datatype BufferOp = Append(plain: Bytes) | Trim

  function Replay(ops: seq<BufferOp>): Bytes
  {
    if ops == [] then []
    else
      var b := Replay(ops[..|ops| - 1]);
      match ops[|ops| - 1]
      case Append(plain) => b + plain
      case Trim => Trimmed(b)
  }

  function Appended(ops: seq<BufferOp>): Bytes
  {
    if ops == [] then []
    else
      var last := ops[|ops| - 1];
      Appended(ops[..|ops| - 1]) + (if last.Append? then last.plain else [])
  }

  lemma {:induction false} ReplayIsCache(ops: seq<BufferOp>)
    ensures IsCacheOf(Replay(ops), Appended(ops))
  {
    if ops != [] {
      var b, log := Replay(ops[..|ops| - 1]), Appended(ops[..|ops| - 1]);
      ReplayIsCache(ops[..|ops| - 1]);
      match ops[|ops| - 1]
      case Append(plain) =>
        CacheGrows(b, log, plain);
        assert Replay(ops) == b + plain && Appended(ops) == log + plain;
      case Trim =>
        CacheTrimmed(b, log);
        assert Replay(ops) == Trimmed(b) && Appended(ops) == log + [] == log;
    }
  }

  /** For every run of appends and trims, the buffer's snapshot is the snapshot of everything appended. */
  lemma SnapshotOfRun(ops: seq<BufferOp>)
    ensures Snapshot(Replay(ops)) == Snapshot(Appended(ops))
    ensures KeyframeComplete(Replay(ops)) == KeyframeComplete(Appended(ops))
    ensures Replay(ops) == [] <==> Appended(ops) == []
  {
    ReplayIsCache(ops);
    SnapshotAgrees(Replay(ops), Appended(ops));
  }
}
