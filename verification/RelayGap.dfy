/**
 The module comment of tcp_relay.py promises viewers a continuous stream.  What is pumped between a viewer's snapshot
 and its publication is not sent to it: which bytes that are in general, and runs in which the stream has a hole.
 */
module RelayGap {
  import opened ByteStrings
  import Frames
  import KeyframeGate
  import opened Markers
  import opened RelayBuffer
  import RelayShared
  import opened StreamSpec
  import opened CameraStream
  import opened Relay
  import opened RelayRuns
  import RelayStream
  import opened RelayTheorems

  /**
   What a published viewer misses are exactly the bytes pumped between its snapshot, step ``i``, and its publication,
   step ``j``: put back between burst and live stretch they make one piece of the log, and it got that piece itself if
   and only if there are none.
   */
  lemma MissingBytes(c: StreamCrypto, labels: seq<Label>, v: RelayShared.Id, h: History, i: nat, j: nat)
    requires IsRun(c, labels) && v in After(c, labels).tasks && After(c, labels).tasks[v].history == Some(h)
    requires Recorded(c, labels, v, h, i, j) && h.published
    ensures var s, got := After(c, labels), After(c, labels).tasks[v].delivered;
            && RelayStream.Ordered(h, |s.log|) && After(c, labels[..i]).log <= After(c, labels[..j]).log <= s.log
            && var lost := After(c, labels[..j]).log[|After(c, labels[..i]).log|..];
               && lost == s.log[h.at..h.live]
               && got == s.log[h.from..h.at] + s.log[h.live..h.upto]
               && s.log[h.from..h.upto] == s.log[h.from..h.at] + lost + s.log[h.live..h.upto]
               && (got == s.log[h.from..h.upto] <==> lost == [])
  {
    hide *;
    LogsGrow(c, labels, v, h, i, j);
    ViewerAccount(c, labels, v, h);
    LostBytes(h, After(c, labels).tasks[v].delivered, After(c, labels[..i]).log, After(c, labels[..j]).log,
              After(c, labels).log);
  }

  lemma LogsGrow(c: StreamCrypto, labels: seq<Label>, v: RelayShared.Id, h: History, i: nat, j: nat)
    requires IsRun(c, labels) && Recorded(c, labels, v, h, i, j) && h.published
    ensures i <= j <= |labels| && IsRun(c, labels[..i]) && IsRun(c, labels[..j])
    ensures |After(c, labels[..i]).log| == h.at && |After(c, labels[..j]).log| == h.live
    ensures After(c, labels[..i]).log <= After(c, labels[..j]).log <= After(c, labels).log
  {
    hide Apply, Enabled;
    RunEvolves(c, labels, j);
    assert labels[..j][..i] == labels[..i];
    RunEvolves(c, labels[..j], i);
  }

  lemma ViewerAccount(c: StreamCrypto, labels: seq<Label>, v: RelayShared.Id, h: History)
    requires IsRun(c, labels) && v in After(c, labels).tasks && After(c, labels).tasks[v].history == Some(h)
    ensures var s := After(c, labels);
            RelayStream.Ordered(h, |s.log|) && s.tasks[v].delivered == s.log[h.from..h.at] + s.log[h.live..h.upto]
  {
    hide Apply, Enabled;
    RunKeepsInvariants(c, labels);
    var s := After(c, labels);
    assert RelayStream.TaskOk(s.tasks[v], s.log, s.base);
  }

  lemma LostBytes(h: History, got: Bytes, before: Bytes, at: Bytes, log: Bytes)
    requires RelayStream.Ordered(h, |log|) && before <= at <= log && |before| == h.at && |at| == h.live
    requires got == log[h.from..h.at] + log[h.live..h.upto]
    ensures var lost := at[|before|..];
            && lost == log[h.at..h.live]
            && log[h.from..h.upto] == log[h.from..h.at] + lost + log[h.live..h.upto]
            && (got == log[h.from..h.upto] <==> lost == [])
  {
    SlicesJoin(log, h.from, h.at, h.live);
    SlicesJoin(log, h.from, h.live, h.upto);
  }

  /** The published viewer got the snapshot of ``before`` and ``live``, and not ``lost``. */
  ghost predicate HasHole(s: State, before: Bytes, lost: Bytes, live: Bytes)
  {
    var n := |before|;
    && s.log == before + lost + live && 0 < |Snapshot(before)| <= n
    && s.sh.writer == Some(1) && 1 in s.tasks && !s.tasks[1].closing
    && s.tasks[1].delivered == Snapshot(before) + live
    && s.tasks[1].history == Some(History(0, n - |Snapshot(before)|, n, true, n + |lost|, |s.log|))
  }

  /**
   Whatever the camera sends: if output comes while a viewer's burst is being written, the viewer gets the burst and
   what comes after its publication, and never the output in between.
   */
  lemma GapRun(c: StreamCrypto, first: Bytes, second: Bytes, third: Bytes) returns (labels: seq<Label>)
    requires IsChunk(second) && IsChunk(third)
    requires Reference(c, first) != [] && Increment(c, first + second, third) != []
    ensures IsRun(c, labels)
    ensures HasHole(After(c, labels), Reference(c, first), Increment(c, first, second),
                    Increment(c, first + second, third))
  {
    hide Reference, Increment, Snapshot, Live;
    var out, lost, live := Reference(c, first), Increment(c, first, second), Increment(c, first + second, third);
    labels := LiveRun(c, first, second);
    var s := After(c, labels);
    var h := History(0, |out| - |Snapshot(out)|, |out|, true, |s.log|, |s.log|);
    LiveRead(c, s, first + second, Snapshot(out), h, third);
    RunSnoc(c, labels, PumpReads(0, third));
    labels := labels + [PumpReads(0, third)];
    LiveState(After(c, labels), first + second + third, Snapshot(out) + live, h.(upto := |After(c, labels).log|));
  }

  lemma LiveState(s: State, wire: Bytes, delivered: Bytes, h: History)
    requires Live(s, wire, Writing(1), delivered, h)
    ensures s.sh.writer == Some(1) && 1 in s.tasks && !s.tasks[1].closing
    ensures s.tasks[1].delivered == delivered && s.tasks[1].history == Some(h)
  {
  }

  /** asyncio's default high-water mark: a transport with more unsent bytes than that makes drain() wait. */
  const HIGH_WATER := 64 * 1024

  /**
   The promise is not always kept: for every cipher and every handshake that yields a key there is a well-formed stream
   and a run after which what a still published viewer got is no contiguous piece of the plaintext.  Its burst is long
   enough for the handler to wait while it is written.
   */
  lemma StreamsCanHaveGaps(c: StreamCrypto, handshake: Frames.Sent, key: Bytes) returns (labels: seq<Label>)
    requires Camera(c, handshake, key)
    ensures IsRun(c, labels)
    ensures HasLongGap(After(c, labels))
  {
    hide *;
    var burst, first, second, third := GapReads(c, handshake, key);
    labels := GapRun(c, first, second, third);
    HoleIsGap(After(c, labels), burst);
  }

  /** The published, open viewer has a long burst and a later stretch, which together are no piece of the log. */
  ghost predicate HasLongGap(s: State)
  {
    && s.sh.writer == Some(1) && 1 in s.tasks && !s.tasks[1].closing && s.tasks[1].history.Some?
    && var got, h := s.tasks[1].delivered, s.tasks[1].history.value;
       && h.from + HIGH_WATER < h.at < h.live < h.upto <= |s.log|
       && got == s.log[h.from..h.at] + s.log[h.live..h.upto]
       && (forall a, b | 0 <= a <= b <= |s.log| :: got != s.log[a..b])
  }

  lemma GapReads(c: StreamCrypto, handshake: Frames.Sent, key: Bytes)
    returns (burst: Bytes, first: Bytes, second: Bytes, third: Bytes)
    requires Camera(c, handshake, key)
    ensures IsChunk(second) && IsChunk(third) && OneMarker(burst) && |burst| > HIGH_WATER && burst != []
    ensures Reference(c, first) == burst == Snapshot(burst)
    ensures Increment(c, first, second) == [0x81] && Increment(c, first + second, third) == [0x82]
  {
    hide Reference, Increment, KeyframeGate.Gate, Video, CameraWire, Snapshot, LongGroup, OneMarker;
    var items := LongGroup(3);
    burst := PlainSent(items);
    LongGroupPlain(c, key, 3);
    OneMarkerIsOneGroup(burst);
    CameraOutput(c, handshake, key, items);
    first := CameraWire(c, handshake, key, items);
    second := VideoRead(c, handshake, key, items, [0x81]);
    ItemsSnoc(c, key, items, [0x81]);
    KeyframeGate.FirstKeyframeStable(burst, [0x81]);
    third := VideoRead(c, handshake, key, items + [Video([0x81])], [0x82]);
  }

  lemma HoleIsGap(s: State, burst: Bytes)
    requires HasHole(s, burst, [0x81], [0x82]) && OneMarker(burst) && Snapshot(burst) == burst && |burst| > HIGH_WATER
    ensures HasLongGap(s)
  {
    hide Snapshot, OneMarker;
    HolesShow(burst, s.log, s.tasks[1].delivered);
  }

  lemma HolesShow(burst: Bytes, log: Bytes, got: Bytes)
    requires OneMarker(burst) && log == burst + [0x81] + [0x82] && got == burst + [0x82]
    ensures got == log[0..|burst|] + log[|burst| + 1..|burst| + 2]
    ensures forall a, b | 0 <= a <= b <= |log| :: got != log[a..b]
  {
    var n, m := |burst|, H264_SPS_3B;
    assert burst[2] == m[2] && burst[3] == m[3];
    forall a, b | 0 <= a <= b <= |log| ensures got != log[a..b] {
      var piece := log[a..b];
      assert |piece| == n + 1 ==> piece[n] == log[a + n] && piece[2] == log[a + 2];
    }
  }
}
