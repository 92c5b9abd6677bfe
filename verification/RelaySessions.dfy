/** All sessions of a run: the whole log is what their decoders produced, one after the other; from camera to viewer. */
module RelaySessions {
  import opened ByteStrings
  import opened RelayShared
  import opened StreamSpec
  import opened CameraStream
  import opened Relay
  import opened RelayTheorems
  import Frames
  import KeyframeGate
  import RelayBuffer
  import RelayInvariants
  import RelayStream

  /** The sessions started, in order. */
  function Sessions(labels: seq<Label>): seq<Id>
  {
    if labels == [] then []
    else
      var l := labels[|labels| - 1];
      Sessions(labels[..|labels| - 1]) + (if l.LanStarted? && l.ok then [l.session] else [])
  }

  /** What each session's decoder makes of everything its pump has read. */
  ghost function Outputs(c: StreamCrypto, pumps: map<Id, Pump>, order: seq<Id>): seq<Bytes>
    requires forall p | p in order :: p in pumps
  {
    seq(|order|, i requires 0 <= i < |order| => Reference(c, pumps[order[i]].wire))
  }

  /** ``order`` names the pumps of ``s``, each once, with the current one last, and the log is their outputs. */
  ghost predicate LogOf(c: StreamCrypto, s: State, order: seq<Id>)
  {
    && (forall p | p in order :: p in s.pumps)
    && (forall p | p in s.pumps :: p in order)
    && (forall i, j | 0 <= i < j < |order| :: order[i] != order[j])
    && s.log == Flatten(Outputs(c, s.pumps, order))
    && (s.sh.pumpTask.Some? ==> order != [] && order[|order| - 1] == s.sh.pumpTask.value)
  }

  /** Nothing read and nothing started. */
  ghost predicate SameWires(s: State, s': State)
  {
    && s'.log == s.log && s'.pumps.Keys == s.pumps.Keys
    && (forall p | p in s.pumps :: s'.pumps[p].wire == s.pumps[p].wire)
    && (s'.sh.pumpTask == s.sh.pumpTask || s'.sh.pumpTask.None?)
  }

  lemma TeardownKeepsWires(s: State, id: Id)
    requires id in s.tasks
    ensures SameWires(s, BeginTeardown(s, id))
    ensures SameWires(s, ResetUpstream(s, id))
    ensures SameWires(s, EndTeardown(s, id))
  {
  }

  lemma EnterKeepsWires(s: State, id: Id, ok: bool, timer: Id)
    requires At(s, id, Waiting)
    ensures SameWires(s, EnterLocked(s, id, ok, timer))
  {
    hide RelayBuffer.Snapshot, BeginTeardown, ResetUpstream, EndTeardown;
    if s.tasks[id].kind.CloseTimer? {
      TeardownKeepsWires(s.(sh := s.sh.(closeHandle := None)), id);
    } else {
      TeardownKeepsWires(s, id);
    }
  }

  lemma TeardownStepKeepsWires(c: StreamCrypto, s: State, l: Label)
    requires Enabled(s, l) && RelayStream.TeardownLabel(l) && !(l.LanStarted? && l.ok)
    ensures SameWires(s, Apply(c, s, l))
  {
    hide BeginTeardown, ResetUpstream, EndTeardown;
    TeardownKeepsWires(s, l.id);
    if l.LanClosed? {
      TeardownKeepsWires(s.(clients := s.clients - {s.tasks[l.id].pc.lan}), l.id);
    }
  }

  lemma OtherKeepsWires(c: StreamCrypto, s: State, l: Label)
    requires Enabled(s, l) && !RelayStream.TeardownLabel(l) && !l.Enter? && !l.PumpReads?
    ensures SameWires(s, Apply(c, s, l))
  {
    hide RelayBuffer.Snapshot;
  }

  lemma StepKeepsWires(c: StreamCrypto, s: State, l: Label)
    requires Enabled(s, l) && !(l.LanStarted? && l.ok) && !l.PumpReads?
    ensures SameWires(s, Apply(c, s, l))
  {
    hide SameWires;
    if l.Enter? {
      EnterKeepsWires(s, l.id, l.ok, l.timer);
    } else if RelayStream.TeardownLabel(l) {
      TeardownStepKeepsWires(c, s, l);
    } else {
      OtherKeepsWires(c, s, l);
    }
  }

  lemma SameWiresKeepLog(c: StreamCrypto, s: State, s': State, order: seq<Id>)
    requires LogOf(c, s, order) && SameWires(s, s')
    ensures LogOf(c, s', order)
  {
    assert Outputs(c, s'.pumps, order) == Outputs(c, s.pumps, order);
  }

  /** A new session has no output yet. */
  lemma StartKeepsLog(c: StreamCrypto, s: State, s': State, order: seq<Id>, session: Id)
    requires LogOf(c, s, order) && session !in s.pumps
    requires s'.pumps == s.pumps[session := Pump(Created, false, [])] && s'.log == s.log
    requires s'.sh.pumpTask == Some(session)
    ensures LogOf(c, s', order + [session])
  {
    NothingDecodedYet(c);
    assert Outputs(c, s'.pumps, order + [session]) == Outputs(c, s.pumps, order) + [[]];
    FlattenSnoc(Outputs(c, s.pumps, order), []);
  }

  /** Only the last session's output grows. */
  lemma ReadKeepsLog(c: StreamCrypto, s: State, s': State, order: seq<Id>, p: Id, raw: Bytes)
    requires LogOf(c, s, order) && p in s.pumps && s.sh.pumpTask == Some(p)
    requires s'.pumps.Keys == s.pumps.Keys && s'.pumps[p].wire == s.pumps[p].wire + raw
    requires forall q | q in s.pumps && q != p :: s'.pumps[q].wire == s.pumps[q].wire
    requires s'.log == s.log + Increment(c, s.pumps[p].wire, raw) && s'.sh.pumpTask == s.sh.pumpTask
    ensures LogOf(c, s', order)
  {
    hide Reference, Increment;
    ReferenceExtends(c, s.pumps[p].wire, raw);
    var n := |order| - 1;
    var before, after := Outputs(c, s.pumps, order), Outputs(c, s'.pumps, order);
    assert after[..n] == before[..n];
    assert after[n] == before[n] + Increment(c, s.pumps[p].wire, raw);
    Associative(Flatten(before[..n]), before[n], Increment(c, s.pumps[p].wire, raw));
  }

  lemma ReadFields(c: StreamCrypto, s: State, p: Id, raw: Bytes)
    requires Enabled(s, PumpReads(p, raw))
    ensures var s' := Apply(c, s, PumpReads(p, raw));
            && p in s.pumps && s'.pumps.Keys == s.pumps.Keys && s'.pumps[p].wire == s.pumps[p].wire + raw
            && (forall q | q in s.pumps && q != p :: s'.pumps[q].wire == s.pumps[q].wire)
            && s'.log == s.log + Increment(c, s.pumps[p].wire, raw) && s'.sh.pumpTask == s.sh.pumpTask
  {
    hide Increment, RelayBuffer.KeyframeComplete, RelayBuffer.Absorbed;
    assert s.log + [] == s.log;
  }

  lemma StartFields(c: StreamCrypto, s: State, l: Label)
    requires Enabled(s, l) && l.LanStarted? && l.ok
    ensures var s' := Apply(c, s, l);
            && l.session !in s.pumps && s'.pumps == s.pumps[l.session := Pump(Created, false, [])]
            && s'.log == s.log && s'.sh.pumpTask == Some(l.session)
  {
  }

  lemma StepKeepsLogOf(c: StreamCrypto, s: State, l: Label, order: seq<Id>)
    requires RelayInvariants.ControlInv(s) && LogOf(c, s, order) && Enabled(s, l)
    ensures LogOf(c, Apply(c, s, l), order + if l.LanStarted? && l.ok then [l.session] else [])
  {
    hide RelayInvariants.ControlInv, LogOf, Enabled, Apply;
    assert order + [] == order;
    if l.LanStarted? && l.ok {
      StartFields(c, s, l);
      StartKeepsLog(c, s, Apply(c, s, l), order, l.session);
    } else if l.PumpReads? {
      RelayStream.ReadingPumpIsCurrent(s, l.p, l.raw);
      ReadFields(c, s, l.p, l.raw);
      ReadKeepsLog(c, s, Apply(c, s, l), order, l.p, l.raw);
    } else {
      StepKeepsWires(c, s, l);
      SameWiresKeepLog(c, s, Apply(c, s, l), order);
    }
  }

  /** In every reachable state the whole log is the outputs of all sessions' decoders, in the order of the sessions. */
  lemma {:induction false} LogIsOutputs(c: StreamCrypto, labels: seq<Label>)
    requires IsRun(c, labels)
    ensures LogOf(c, After(c, labels), Sessions(labels))
    decreases |labels|
  {
    if labels != [] {
      var before, l := labels[..|labels| - 1], labels[|labels| - 1];
      LogIsOutputs(c, before);
      RunKeepsInvariants(c, before);
      StepKeepsLogOf(c, After(c, before), l, Sessions(before));
    }
  }

  // From camera to viewer.

  /** What a camera has sent in one session: a handshake, items, and perhaps the beginning of another frame. */
  datatype Sending = Sending(handshake: Frames.Sent, key: Bytes, items: seq<Item>, tail: Bytes)

  ghost predicate Sends(c: StreamCrypto, cam: Sending, wire: Bytes)
  {
    && Camera(c, cam.handshake, cam.key) && AllValid(cam.items) && Frames.Stuck(cam.tail)
    && wire == CameraWire(c, cam.handshake, cam.key, cam.items) + cam.tail
  }

  /** The cameras' plaintexts, each from its sync point on. */
  function Videos(cams: seq<Sending>): seq<Bytes>
  {
    seq(|cams|, i requires 0 <= i < |cams| =>
      KeyframeGate.Gate(PlainSent(cams[i].items), KeyframeGate.MAX_PACK_LOOKBACK))
  }

  /** In session ``i`` of the run the pump has read what camera ``i`` sent. */
  ghost predicate AllSend(c: StreamCrypto, s: State, order: seq<Id>, cams: seq<Sending>)
  {
    |cams| == |order| && forall i | 0 <= i < |order| :: order[i] in s.pumps && Sends(c, cams[i], s.pumps[order[i]].wire)
  }

  lemma OutputsAreVideo(c: StreamCrypto, s: State, order: seq<Id>, cams: seq<Sending>)
    requires AllSend(c, s, order, cams) && forall p | p in order :: p in s.pumps
    ensures Outputs(c, s.pumps, order) == Videos(cams)
  {
    hide Reference, KeyframeGate.Gate, CameraWire;
    forall i | 0 <= i < |order| ensures Outputs(c, s.pumps, order)[i] == Videos(cams)[i] {
      assert Sends(c, cams[i], s.pumps[order[i]].wire);
      SendingOutput(c, cams[i], s.pumps[order[i]].wire);
    }
  }

  lemma SendingOutput(c: StreamCrypto, cam: Sending, wire: Bytes)
    requires Sends(c, cam, wire)
    ensures Reference(c, wire) == KeyframeGate.Gate(PlainSent(cam.items), KeyframeGate.MAX_PACK_LOOKBACK)
  {
    StreamRoundTrip(c, cam.handshake, cam.key, cam.items, cam.tail);
  }

  /**
   From camera to viewer, over any number of sessions, clients and interruptions: what a viewer has received is a burst
   and one stretch of the plaintexts the cameras sent, each from its sync point on, laid end to end; the burst is the
   snapshot of its session's part, and ends where the log ended at step ``i``; the stretch begins where it ended at
   step ``j``.
   */
  lemma CameraToViewer(c: StreamCrypto, labels: seq<Label>, cams: seq<Sending>, v: Id)
    returns (h: History, i: nat, j: nat)
    requires IsRun(c, labels) && v in After(c, labels).tasks
    requires AllSend(c, After(c, labels), Sessions(labels), cams)
    ensures var got, video := After(c, labels).tasks[v].delivered, Flatten(Videos(cams));
            After(c, labels).log == video &&
            if After(c, labels).tasks[v].history.None? then got == []
            else
              && Recorded(c, labels, v, h, i, j) && RelayStream.Ordered(h, |video|)
              && got == video[h.from..h.at] + video[h.live..h.upto]
              && video[h.from..h.at] == RelayBuffer.Snapshot(video[h.base..h.at])
  {
    hide RelayBuffer.Snapshot, Enabled, Apply, AllSend;
    LogIsOutputs(c, labels);
    OutputsAreVideo(c, After(c, labels), Sessions(labels), cams);
    h, i, j := ViewersGetSuffixThenStretch(c, labels, v);
  }
}
