/** Building blocks for concrete runs of the relay. */
module RelayRuns {
  import opened ByteStrings
  import opened RelayBuffer
  import RelayShared
  import opened StreamSpec
  import opened Relay
  import RelayStream
  import RelayTheorems

  lemma RunSnoc(c: StreamCrypto, labels: seq<Label>, l: Label)
    requires IsRun(c, labels) && Enabled(After(c, labels), l)
    ensures IsRun(c, labels + [l]) && After(c, labels + [l]) == Apply(c, After(c, labels), l)
  {
    assert (labels + [l])[..|labels|] == labels;
  }

  /** A prewarm call is connecting to the camera. */
  ghost predicate Connecting(s: State, hold: real)
  {
    && s.tasks == map[0 := Task(Prewarm(hold), StartingLan, [], None, false)] && s.lock == Some(0)
    && s.pumps == map[] && s.sh == RelayShared.INITIAL && s.log == [] && s.clients == {}
  }

  lemma Connect(c: StreamCrypto, hold: real) returns (labels: seq<Label>)
    ensures IsRun(c, labels) && Connecting(After(c, labels), hold)
  {
    labels := [];
    RunSnoc(c, labels, Arrive(0, Prewarm(hold)));
    labels := labels + [Arrive(0, Prewarm(hold))];
    RunSnoc(c, labels, Enter(0, true, 0));
    labels := labels + [Enter(0, true, 0)];
    RunSnoc(c, labels, KeyFetched(0, true));
    labels := labels + [KeyFetched(0, true)];
  }

  /** Pump 0 is reading, task 0 has finished its prewarm call with its close timer armed, and nobody watches. */
  ghost predicate Warm(s: State, wire: Bytes)
  {
    && s.lock.None? && s.tasks == map[0 := Task(Prewarm(60.0), Done, [], None, false)]
    && s.pumps == map[0 := Pump(Reading, false, wire)] && s.base == 0
    && s.sh.writer.None? && s.sh.pumpTask == s.sh.lan == Some(0) && s.sh.closeHandle == Some(0)
    && s.sh.timers == {0} && s.clients == {0}
  }

  lemma WarmUp(c: StreamCrypto) returns (labels: seq<Label>)
    ensures IsRun(c, labels) && Warm(After(c, labels), [])
    ensures After(c, labels).log == [] && After(c, labels).sh.buffer == []
  {
    labels := Connect(c, 60.0);
    RunSnoc(c, labels, LanStarted(0, true, 0, 0));
    labels := labels + [LanStarted(0, true, 0, 0)];
    RunSnoc(c, labels, PumpStarts(0));
    labels := labels + [PumpStarts(0)];
  }

  lemma WarmRead(c: StreamCrypto, s: State, wire: Bytes, raw: Bytes)
    requires Warm(s, wire) && IsChunk(raw)
    ensures Enabled(s, PumpReads(0, raw))
    ensures Warm(Apply(c, s, PumpReads(0, raw)), wire + raw)
    ensures Apply(c, s, PumpReads(0, raw)).log == s.log + Increment(c, wire, raw)
  {
    hide Increment, KeyframeComplete, Absorbed;
  }

  /** Whatever the camera sends can be read, byte after byte. */
  lemma {:induction false} WarmReads(c: StreamCrypto, x: Bytes) returns (labels: seq<Label>)
    ensures IsRun(c, labels) && Warm(After(c, labels), x)
    ensures After(c, labels).log == Reference(c, x)
  {
    hide Increment, Reference, Warm;
    if x == [] {
      labels := WarmUp(c);
      NothingDecodedYet(c);
    } else {
      var before, last := x[..|x| - 1], x[|x| - 1..];
      labels := WarmReads(c, before);
      WarmRead(c, After(c, labels), before, last);
      RunSnoc(c, labels, PumpReads(0, last));
      labels := labels + [PumpReads(0, last)];
      assert before + last == x;
      ReferenceExtends(c, before, last);
    }
  }

  // A viewer.

  /** What every state below has in common. */
  ghost predicate Watched(s: State, wire: Bytes, phase: Phase, viewer: Task)
  {
    && s.lock.None? && s.base == 0
    && s.tasks == map[0 := Task(Prewarm(60.0), Done, [], None, false), 1 := viewer]
    && s.pumps == map[0 := Pump(phase, false, wire)] && s.sh.pumpTask == s.sh.lan == Some(0)
    && s.sh.closeHandle.None? && s.sh.timers == {}
  }

  /** The viewer got its burst when the log had ``at`` bytes, and is still writing it. */
  ghost predicate InBurst(s: State, wire: Bytes, burst: Bytes, at: nat)
  {
    && |burst| <= at && s.sh.writer.None?
    && Watched(s, wire, Reading,
               Task(Viewer, Draining, burst, Some(History(0, at - |burst|, at, false, at, at)), false))
  }

  lemma ViewerEnters(c: StreamCrypto, s: State, wire: Bytes)
    requires Warm(s, wire) && Snapshot(s.sh.buffer) != [] && |Snapshot(s.sh.buffer)| <= |s.log|
    ensures Enabled(s, Arrive(1, Viewer)) && Enabled(Apply(c, s, Arrive(1, Viewer)), Enter(1, true, 1))
    ensures var s' := Apply(c, Apply(c, s, Arrive(1, Viewer)), Enter(1, true, 1));
            InBurst(s', wire, Snapshot(s.sh.buffer), |s.log|) && s'.log == s.log
  {
    hide Snapshot;
    var r := Apply(c, s, Arrive(1, Viewer));
    assert PumpAlive(r);
  }

  lemma BurstIsSnapshot(c: StreamCrypto, labels: seq<Label>)
    requires IsRun(c, labels) && After(c, labels).log != [] && After(c, labels).base == 0
    ensures var burst := Snapshot(After(c, labels).sh.buffer);
            burst != [] && burst == Snapshot(After(c, labels).log) && |burst| <= |After(c, labels).log|
  {
    RelayTheorems.BurstsAreSynced(c, labels);
    var s := After(c, labels);
    assert RelayStream.Session(s) == s.log;
    SnapshotIsSuffix(s.log);
  }

  /** Once a stream has output, a viewer can be writing the burst of it. */
  lemma BurstRun(c: StreamCrypto, wire: Bytes) returns (labels: seq<Label>)
    requires Reference(c, wire) != []
    ensures IsRun(c, labels) && After(c, labels).log == Reference(c, wire)
    ensures var out := Reference(c, wire);
            InBurst(After(c, labels), wire, Snapshot(out), |out|) && 0 < |Snapshot(out)| <= |out|
  {
    hide Reference, Snapshot, InBurst;
    labels := WarmReads(c, wire);
    BurstIsSnapshot(c, labels);
    ViewerEnters(c, After(c, labels), wire);
    RunSnoc(c, labels, Arrive(1, Viewer));
    labels := labels + [Arrive(1, Viewer)];
    RunSnoc(c, labels, Enter(1, true, 1));
    labels := labels + [Enter(1, true, 1)];
  }

  lemma BurstOvertaken(c: StreamCrypto, s: State, wire: Bytes, burst: Bytes, at: nat, raw: Bytes)
    requires InBurst(s, wire, burst, at) && IsChunk(raw)
    ensures Enabled(s, PumpReads(0, raw))
    ensures InBurst(Apply(c, s, PumpReads(0, raw)), wire + raw, burst, at)
    ensures Apply(c, s, PumpReads(0, raw)).log == s.log + Increment(c, wire, raw)
  {
    hide Increment, KeyframeComplete, Absorbed;
  }

  /** The viewer is published, and has been sent everything pumped since; ``history`` says what it got. */
  ghost predicate Live(s: State, wire: Bytes, phase: Phase, delivered: Bytes, history: History)
  {
    && s.sh.writer == Some(1) && history.upto == |s.log|
    && Watched(s, wire, phase, Task(Viewer, Attached, delivered, Some(history), false))
  }

  lemma ViewerPublished(c: StreamCrypto, s: State, wire: Bytes, burst: Bytes, at: nat)
    requires InBurst(s, wire, burst, at)
    ensures Enabled(s, BurstDrained(1, true)) && Enabled(Apply(c, s, BurstDrained(1, true)), Publish(1))
    ensures var s', n := Apply(c, Apply(c, s, BurstDrained(1, true)), Publish(1)), |s.log|;
            s'.log == s.log && Live(s', wire, Reading, burst, History(0, at - |burst|, at, true, n, n))
  {
  }

  lemma LiveRead(c: StreamCrypto, s: State, wire: Bytes, delivered: Bytes, history: History, raw: Bytes)
    requires Live(s, wire, Reading, delivered, history) && IsChunk(raw) && Increment(c, wire, raw) != []
    ensures Enabled(s, PumpReads(0, raw))
    ensures var plain, s' := Increment(c, wire, raw), Apply(c, s, PumpReads(0, raw));
            && s'.log == s.log + plain
            && Live(s', wire + raw, Writing(1), delivered + plain, history.(upto := |s'.log|))
  {
    hide Increment, KeyframeComplete, Absorbed;
  }

  /** A viewer whose burst was still being written when ``second`` was read, and who is then published. */
  lemma LiveRun(c: StreamCrypto, first: Bytes, second: Bytes) returns (labels: seq<Label>)
    requires Reference(c, first) != [] && IsChunk(second)
    ensures IsRun(c, labels)
    ensures var out, s := Reference(c, first), After(c, labels);
            && s.log == out + Increment(c, first, second) && 0 < |Snapshot(out)| <= |out|
            && Live(s, first + second, Reading, Snapshot(out),
                    History(0, |out| - |Snapshot(out)|, |out|, true, |s.log|, |s.log|))
  {
    hide Reference, Increment, Snapshot, InBurst, Live;
    var out := Reference(c, first);
    var burst := Snapshot(out);
    labels := BurstRun(c, first);
    BurstOvertaken(c, After(c, labels), first, burst, |out|, second);
    RunSnoc(c, labels, PumpReads(0, second));
    labels := labels + [PumpReads(0, second)];
    ViewerPublished(c, After(c, labels), first + second, burst, |out|);
    RunSnoc(c, labels, BurstDrained(1, true));
    labels := labels + [BurstDrained(1, true)];
    RunSnoc(c, labels, Publish(1));
    labels := labels + [Publish(1)];
  }

  // A viewer that waits for the keyframe.

  /** The viewer entered before there was any output. */
  ghost predicate Awaits(s: State, wire: Bytes, pc: Pc)
  {
    && s.sh.writer.None?
    && Watched(s, wire, Reading, Task(Viewer, pc, [], Some(History(0, 0, 0, false, 0, 0)), false))
  }

  lemma ViewerWaits(c: StreamCrypto, s: State)
    requires Warm(s, []) && s.sh.buffer == [] && s.log == []
    ensures Enabled(s, Arrive(1, Viewer)) && Enabled(Apply(c, s, Arrive(1, Viewer)), Enter(1, true, 1))
    ensures var s' := Apply(c, Apply(c, s, Arrive(1, Viewer)), Enter(1, true, 1));
            Awaits(s', [], WaitKeyframe) && s'.log == []
  {
    assert PumpAlive(Apply(c, s, Arrive(1, Viewer)));
  }

  lemma WaitRead(c: StreamCrypto, s: State, wire: Bytes, pc: Pc, raw: Bytes)
    requires Awaits(s, wire, pc) && IsChunk(raw)
    ensures Enabled(s, PumpReads(0, raw))
    ensures Awaits(Apply(c, s, PumpReads(0, raw)), wire + raw, pc)
    ensures Apply(c, s, PumpReads(0, raw)).log == s.log + Increment(c, wire, raw)
  {
    hide Increment, KeyframeComplete, Absorbed;
  }

  /** A viewer can be waiting while everything the camera sends is read. */
  lemma {:induction false} WaitReads(c: StreamCrypto, x: Bytes) returns (labels: seq<Label>)
    ensures IsRun(c, labels) && Awaits(After(c, labels), x, WaitKeyframe)
    ensures After(c, labels).log == Reference(c, x)
  {
    hide Increment, Reference, Warm, Awaits;
    if x == [] {
      labels := WarmUp(c);
      ViewerWaits(c, After(c, labels));
      RunSnoc(c, labels, Arrive(1, Viewer));
      labels := labels + [Arrive(1, Viewer)];
      RunSnoc(c, labels, Enter(1, true, 1));
      labels := labels + [Enter(1, true, 1)];
      NothingDecodedYet(c);
    } else {
      var before, last := x[..|x| - 1], x[|x| - 1..];
      labels := WaitReads(c, before);
      WaitRead(c, After(c, labels), before, WaitKeyframe, last);
      RunSnoc(c, labels, PumpReads(0, last));
      labels := labels + [PumpReads(0, last)];
      assert before + last == x;
      ReferenceExtends(c, before, last);
    }
  }

  lemma ViewerWoken(c: StreamCrypto, s: State, wire: Bytes)
    requires Awaits(s, wire, WaitKeyframe)
    ensures Enabled(s, KeyframeWaitOver(1))
    ensures var s' := Apply(c, s, KeyframeWaitOver(1)); Awaits(s', wire, WaitSnapshot) && s'.log == s.log
  {
  }

  lemma WokenSnapshot(c: StreamCrypto, s: State, wire: Bytes)
    requires Awaits(s, wire, WaitSnapshot)
    ensures Enabled(s, SnapshotTaken(1))
    ensures var s' := Apply(c, s, SnapshotTaken(1));
            s'.log == s.log && 1 in s'.tasks && s'.tasks[1].delivered == Snapshot(s.sh.buffer)
  {
    hide Snapshot;
  }
}
