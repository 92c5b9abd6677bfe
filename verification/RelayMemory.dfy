/** How large the relay's buffer can get, over all runs. */
module RelayMemory {
  import opened ByteStrings
  import Frames
  import KeyframeGate
  import opened Markers
  import opened RelayBuffer
  import opened RelayShared
  import opened StreamSpec
  import opened CameraStream
  import opened Relay
  import opened RelayRuns
  import opened RelayStream
  import RelayTheorems
  import RelayInvariants

  lemma EmptyIsLean()
    ensures Lean([])
  {
  }

  lemma StepKeepsLean(c: StreamCrypto, s: State, l: Label)
    requires RelayInvariants.ControlInv(s) && Lean(s.sh.buffer) && Enabled(s, l)
    ensures Lean(Apply(c, s, l).sh.buffer)
  {
    hide Lean, Absorbed, Snapshot, RelayInvariants.ControlInv;
    EmptyIsLean();
    if l.PumpReads? {
      AbsorbedIsLean(s.sh.buffer, Increment(c, s.pumps[l.p].wire, l.raw));
    } else if l.Enter? {
      EnterBuffer(s, l.id, l.ok, l.timer);
    } else if RelayInvariants.PumpLabel(l) {
      OtherBuffer(c, s, l);
    } else if TeardownLabel(l) {
      TeardownStepIsQuiet(c, s, l);
    } else {
      OtherBuffer(c, s, l);
    }
  }

  lemma OtherBuffer(c: StreamCrypto, s: State, l: Label)
    requires Enabled(s, l) && !TeardownLabel(l) && !l.Enter? && !l.PumpReads?
    ensures Apply(c, s, l).sh.buffer == s.sh.buffer
  {
    hide Snapshot;
  }

  lemma EnterBuffer(s: State, id: Id, ok: bool, timer: Id)
    requires At(s, id, Waiting)
    ensures EnterLocked(s, id, ok, timer).sh.buffer == s.sh.buffer || EnterLocked(s, id, ok, timer).sh.buffer == []
  {
    hide Snapshot;
  }

  lemma {:induction false} RunKeepsLean(c: StreamCrypto, labels: seq<Label>)
    requires IsRun(c, labels)
    ensures Lean(After(c, labels).sh.buffer)
    decreases |labels|
  {
    if labels == [] {
      EmptyIsLean();
    } else {
      hide Lean;
      var before, l := labels[..|labels| - 1], labels[|labels| - 1];
      RunKeepsLean(c, before);
      RelayTheorems.RunKeepsInvariants(c, before);
      StepKeepsLean(c, After(c, before), l);
    }
  }

  /**
   In every reachable state the buffer holds at least the session's last group.  It is within the target size, or less
   than 1024 bytes longer than that group; and past the target it is exactly the group, or the bytes from the session's
   last marker on nearly fill it.
   */
  lemma BufferSize(c: StreamCrypto, labels: seq<Label>)
    requires IsRun(c, labels)
    ensures var s := After(c, labels);
            && s.base <= |s.log|
            && var n, group := |s.sh.buffer|, Snapshot(Session(s));
               && |group| <= n && (n <= BUFFER_TRIM_TARGET || n < |group| + TRIM_MIN_OFFSET)
               && (n > BUFFER_TRIM_TARGET ==>
                     || s.sh.buffer == group
                     || |Session(s)| - LastKeyframe(Session(s)) > BUFFER_TRIM_TARGET - TRIM_MIN_OFFSET)
  {
    RelayTheorems.RunKeepsInvariants(c, labels);
    RunKeepsLean(c, labels);
    var s := After(c, labels);
    LeanCache(s.sh.buffer, Session(s));
  }

  /** When a pump step exceeds the target: the last group does, or too much is left with its last marker too low. */
  lemma StepExceedsTarget(c: StreamCrypto, labels: seq<Label>, p: Id, raw: Bytes)
    requires IsRun(c, labels) && Enabled(After(c, labels), PumpReads(p, raw))
    requires Increment(c, After(c, labels).pumps[p].wire, raw) != []
    ensures var s, s' := After(c, labels), Apply(c, After(c, labels), PumpReads(p, raw));
            && s.base <= |s.log| && s'.base <= |s'.log|
            && var whole, forgotten := Session(s'), |Session(s)| - |s.sh.buffer|;
               |s'.sh.buffer| > BUFFER_TRIM_TARGET <==>
                 || |Snapshot(whole)| > BUFFER_TRIM_TARGET
                 || (|whole| - forgotten > BUFFER_TRIM_TARGET && LastKeyframe(whole) - forgotten < TRIM_MIN_OFFSET)
  {
    var s := After(c, labels);
    assert p in s.pumps;
    hide *;
    RelayTheorems.RunKeepsInvariants(c, labels);
    InvariantsOf(c, s);
    ReadIsPumpStep(c, s, p, raw);
    PumpStepBuffer(c, After(c, labels), p, raw);
  }

  lemma InvariantsOf(c: StreamCrypto, s: State)
    requires StreamInv(c, s)
    ensures LogInv(c, s)
  {
  }

  lemma ReadIsPumpStep(c: StreamCrypto, s: State, p: Id, raw: Bytes)
    requires Enabled(s, PumpReads(p, raw))
    ensures p in s.pumps && Apply(c, s, PumpReads(p, raw)) == PumpStep(c, s, p, raw)
  {
  }

  lemma PumpStepBuffer(c: StreamCrypto, s: State, p: Id, raw: Bytes)
    requires LogInv(c, s) && p in s.pumps && Increment(c, s.pumps[p].wire, raw) != []
    ensures var s' := PumpStep(c, s, p, raw);
            && s'.base <= |s'.log|
            && var whole, forgotten := Session(s'), |Session(s)| - |s.sh.buffer|;
               |s'.sh.buffer| > BUFFER_TRIM_TARGET <==>
                 || |Snapshot(whole)| > BUFFER_TRIM_TARGET
                 || (|whole| - forgotten > BUFFER_TRIM_TARGET && LastKeyframe(whole) - forgotten < TRIM_MIN_OFFSET)
  {
    hide Reference, Increment, Snapshot, Absorbed, Synced, IsCacheOf, KeyframeComplete;
    var plain := Increment(c, s.pumps[p].wire, raw);
    AbsorbedFields(s, p, s.pumps[p].(wire := s.pumps[p].wire + raw), plain);
    TargetExceeded(s.sh.buffer, Session(s), plain);
    assert (s.log + plain)[s.base..] == Session(s) + plain;
  }

  const FILLERS := 128

  /**
   For every cipher and every handshake that yields a key there is a well-formed stream, one marker followed by more
   than 4 MB without one, and a run that reads it after which the buffer exceeds its target size.
   */
  lemma TargetExceededRun(c: StreamCrypto, handshake: Frames.Sent, key: Bytes) returns (labels: seq<Label>)
    requires Camera(c, handshake, key)
    ensures IsRun(c, labels) && |After(c, labels).sh.buffer| > BUFFER_TRIM_TARGET
  {
    hide Reference, KeyframeGate.Gate, Snapshot, CameraWire, LongGroup, OneMarker;
    var items := LongGroup(FILLERS);
    var plain := PlainSent(items);
    LongGroupPlain(c, key, FILLERS);
    OneMarkerIsOneGroup(plain);
    CameraOutput(c, handshake, key, items);
    labels := WarmReads(c, CameraWire(c, handshake, key, items));
    BufferSize(c, labels);
    assert Session(After(c, labels)) == plain;
  }
}
