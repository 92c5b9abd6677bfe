/**
 The keyframe event, and what it promises a viewer that waits for it: whether it belongs to the current session, and
 whether the viewer it wakes gets a complete keyframe.
 */
module RelayEvent {
  import opened ByteStrings
  import opened Markers
  import opened RelayBuffer
  import opened RelayShared
  import opened StreamSpec
  import opened CameraStream
  import opened Relay
  import opened RelayInvariants
  import opened RelayClients
  import opened RelayRuns
  import opened RelayStream
  import RelaySessions
  import RelayTheorems
  import RelayTimers
  import Frames
  import KeyframeGate

  ghost predicate EventInv(s: State)
  {
    s.sh.keyframeSeen ==> s.sh.lan.Some?
  }

  /** How the event can be set after a step: it was, in the same session, or the buffer just got its keyframe. */
  ghost predicate EventStep(s: State, s': State, l: Label)
  {
    s'.sh.keyframeSeen ==>
      || (s.sh.keyframeSeen && s'.base == s.base && s'.sh.lan == s.sh.lan)
      || KeyframeComplete(s'.sh.buffer)
      || (s.sh.keyframeSeen && l.LanStarted? && l.ok)
  }

  lemma TeardownEvent(s: State, id: Id, l: Label)
    requires id in s.tasks && EventInv(s)
    ensures EventInv(BeginTeardown(s, id)) && EventInv(ResetUpstream(s, id)) && EventInv(EndTeardown(s, id))
    ensures EventStep(s, BeginTeardown(s, id), l)
    ensures EventStep(s, ResetUpstream(s, id), l)
    ensures EventStep(s, EndTeardown(s, id), l)
  {
  }

  lemma EnterEvent(s: State, id: Id, ok: bool, timer: Id)
    requires At(s, id, Waiting) && EventInv(s)
    ensures var s' := EnterLocked(s, id, ok, timer);
            EventInv(s') && EventStep(s, s', Enter(id, ok, timer))
  {
    hide KeyframeComplete, Snapshot, BeginTeardown, ResetUpstream, EndTeardown;
    TeardownEvent(s, id, Enter(id, ok, timer));
    var r := s.(sh := s.sh.(closeHandle := None));
    TeardownEvent(r, id, Enter(id, ok, timer));
  }

  lemma StepEvent(c: StreamCrypto, s: State, l: Label)
    requires ControlInv(s) && RelayTimers.SessionInv(s) && EventInv(s) && Enabled(s, l)
    ensures EventInv(Apply(c, s, l)) && EventStep(s, Apply(c, s, l), l)
  {
    hide KeyframeComplete, Snapshot, Absorbed, Increment;
    hide BeginTeardown, ResetUpstream, EndTeardown, EnterLocked, ControlInv;
    if l.PumpReads? {
      ReadingPumpIsCurrent(s, l.p, l.raw);
    } else if l.Enter? {
      EnterEvent(s, l.id, l.ok, l.timer);
    } else if TeardownLabel(l) {
      TeardownEvent(s, l.id, l);
      if l.LanClosed? {
        TeardownEvent(s.(clients := s.clients - {s.tasks[l.id].pc.lan}), l.id, l);
      }
    }
  }

  lemma {:induction false} RunKeepsEvent(c: StreamCrypto, labels: seq<Label>)
    requires IsRun(c, labels)
    ensures EventInv(After(c, labels))
    decreases |labels|
  {
    if labels != [] {
      var before, l := labels[..|labels| - 1], labels[|labels| - 1];
      RunKeepsEvent(c, before);
      RelayTheorems.RunKeepsInvariants(c, before);
      RelayTimers.RunKeepsSession(c, before);
      StepEvent(c, After(c, before), l);
    }
  }

  /** At step ``k`` the session of state ``s`` was running, and its log ended in a complete keyframe. */
  ghost predicate KeyframeAtStep(c: StreamCrypto, labels: seq<Label>, k: nat, s: State)
  {
    && k <= |labels| && IsRun(c, labels[..k])
    && var r := After(c, labels[..k]);
       && r.base == s.base <= |r.log| && r.sh.lan == s.sh.lan && KeyframeComplete(Session(r))
  }

  lemma KeyframeNow(c: StreamCrypto, labels: seq<Label>)
    requires IsRun(c, labels) && KeyframeComplete(After(c, labels).sh.buffer)
    ensures KeyframeAtStep(c, labels, |labels|, After(c, labels))
  {
    hide KeyframeComplete;
    assert labels[..|labels|] == labels;
    RelayTheorems.RunKeepsInvariants(c, labels);
    SnapshotAgrees(After(c, labels).sh.buffer, Session(After(c, labels)));
  }

  lemma KeyframeEarlier(c: StreamCrypto, labels: seq<Label>, k: nat, s: State)
    requires labels != [] && KeyframeAtStep(c, labels[..|labels| - 1], k, s)
    ensures KeyframeAtStep(c, labels, k, s)
  {
    assert labels[..|labels| - 1][..k] == labels[..k];
  }

  lemma SameForEvent(c: StreamCrypto, labels: seq<Label>, k: nat, s: State, s': State)
    requires KeyframeAtStep(c, labels, k, s) && s'.base == s.base && s'.sh.lan == s.sh.lan
    ensures KeyframeAtStep(c, labels, k, s')
  {
  }

  // Whose event it is.

  /** The event is not set, or the current session's own log has ended in a complete keyframe. */
  ghost predicate EventOwn(c: StreamCrypto, labels: seq<Label>)
    requires IsRun(c, labels)
  {
    After(c, labels).sh.keyframeSeen ==> exists k: nat :: KeyframeAtStep(c, labels, k, After(c, labels))
  }

  /** A session starts while the event is set. */
  predicate Adopts(s: State, l: Label)
  {
    l.LanStarted? && l.ok && s.sh.keyframeSeen
  }

  /** The second stretch of a teardown, which clears the event. */
  predicate Resets(s: State, l: Label)
    requires Enabled(s, l)
  {
    match l
    case PumpAwaited(_) => true
    case KeyFetched(_, ok) => !ok
    case LanStarted(_, ok, _, _) => !ok
    case Enter(id, ok, _) => !PumpAlive(s) && (s.tasks[id].kind.Stopper? || (!ok && !s.tasks[id].kind.CloseTimer?))
    case _ => false
  }

  /** A teardown clears the event, or the session's log now ends in a complete keyframe. */
  predicate Reclaims(c: StreamCrypto, s: State, l: Label)
    requires Enabled(s, l) && s.base <= |s.log|
  {
    || Resets(s, l)
    || (l.PumpReads? && KeyframeComplete(Session(s) + Increment(c, s.pumps[l.p].wire, l.raw)))
  }

  /** What other steps than these leave alone. */
  ghost predicate SessionStays(s: State, s': State, log: Bytes)
  {
    s'.log == log && s'.base == s.base && s'.sh.lan == s.sh.lan && (s.sh.keyframeSeen ==> s'.sh.keyframeSeen)
  }

  lemma TeardownResets(s: State, id: Id)
    requires id in s.tasks
    ensures SessionStays(s, EndTeardown(s, id), s.log)
    ensures !ResetUpstream(s, id).sh.keyframeSeen
    ensures if PumpAlive(s) then SessionStays(s, BeginTeardown(s, id), s.log) else !BeginTeardown(s, id).sh.keyframeSeen
  {
  }

  lemma EnterResets(c: StreamCrypto, s: State, id: Id, ok: bool, timer: Id)
    requires Enabled(s, Enter(id, ok, timer))
    ensures var s' := EnterLocked(s, id, ok, timer);
            if Resets(s, Enter(id, ok, timer)) then !s'.sh.keyframeSeen else SessionStays(s, s', s.log)
  {
    hide Snapshot, BeginTeardown, ResetUpstream, EndTeardown;
    TeardownResets(s, id);
    TeardownResets(s.(sh := s.sh.(closeHandle := None)), id);
  }

  lemma TeardownStepResets(c: StreamCrypto, s: State, l: Label)
    requires ControlInv(s) && Enabled(s, l) && TeardownLabel(l) && !(l.LanStarted? && l.ok)
    ensures if Resets(s, l) then !Apply(c, s, l).sh.keyframeSeen else SessionStays(s, Apply(c, s, l), s.log)
  {
    assert PumpAllows(s, s.tasks[l.id].pc);
    hide ControlInv, BeginTeardown, ResetUpstream, EndTeardown;
    TeardownResets(s, l.id);
    if l.LanClosed? {
      TeardownResets(s.(clients := s.clients - {s.tasks[l.id].pc.lan}), l.id);
    }
  }

  lemma OtherStays(c: StreamCrypto, s: State, l: Label)
    requires Enabled(s, l) && !TeardownLabel(l) && !l.Enter?
    ensures SessionStays(s, Apply(c, s, l), s.log + if l.PumpReads? then Increment(c, s.pumps[l.p].wire, l.raw) else [])
  {
    hide Snapshot, Increment, Absorbed, KeyframeComplete;
    assert s.log + [] == s.log;
  }

  lemma StepResets(c: StreamCrypto, s: State, l: Label)
    requires ControlInv(s) && Enabled(s, l) && !(l.LanStarted? && l.ok)
    ensures if Resets(s, l) then !Apply(c, s, l).sh.keyframeSeen
            else SessionStays(s, Apply(c, s, l),
                              s.log + if l.PumpReads? then Increment(c, s.pumps[l.p].wire, l.raw) else [])
  {
    hide ControlInv, SessionStays, Increment;
    assert s.log + [] == s.log;
    if l.Enter? {
      EnterResets(c, s, l.id, l.ok, l.timer);
    } else if TeardownLabel(l) {
      TeardownStepResets(c, s, l);
    } else {
      OtherStays(c, s, l);
    }
  }

  lemma StepKeepsPumps(c: StreamCrypto, s: State, l: Label)
    requires Enabled(s, l)
    ensures s.pumps.Keys <= Apply(c, s, l).pumps.Keys
  {
    hide Enabled, Apply;
    if l.LanStarted? && l.ok {
      RelaySessions.StartFields(c, s, l);
    } else if l.PumpReads? {
      RelaySessions.ReadFields(c, s, l.p, l.raw);
    } else {
      RelaySessions.StepKeepsWires(c, s, l);
    }
  }

  lemma {:induction false} RunKeepsPumps(c: StreamCrypto, labels: seq<Label>, k: nat)
    requires IsRun(c, labels) && k <= |labels| && IsRun(c, labels[..k])
    ensures After(c, labels[..k]).pumps.Keys <= After(c, labels).pumps.Keys
    decreases |labels|
  {
    if k == |labels| {
      assert labels[..k] == labels;
    } else {
      var n := |labels| - 1;
      assert labels[..n][..k] == labels[..k];
      RunKeepsPumps(c, labels[..n], k);
      StepKeepsPumps(c, After(c, labels[..n]), labels[n]);
    }
  }

  /** Everything known about a reachable state, for the lemmas below. */
  ghost predicate Reached(c: StreamCrypto, s: State)
  {
    ControlInv(s) && StreamInv(c, s) && EventInv(s) && ClientInv(s) && RelayTimers.SessionInv(s)
  }

  lemma RunReaches(c: StreamCrypto, labels: seq<Label>)
    requires IsRun(c, labels)
    ensures Reached(c, After(c, labels)) && After(c, labels).base <= |After(c, labels).log|
  {
    RelayTheorems.RunKeepsInvariants(c, labels);
    RelayTimers.RunKeepsSession(c, labels);
    RunKeepsEvent(c, labels);
    RunKeepsClients(c, labels);
  }

  /** A new session's client has a new name, so no step before was one of that session, and it has no output yet. */
  lemma AdoptedIsForeign(c: StreamCrypto, labels: seq<Label>, l: Label)
    requires IsRun(c, labels) && Enabled(After(c, labels), l) && Adopts(After(c, labels), l)
    ensures IsRun(c, labels + [l]) && !EventOwn(c, labels + [l])
  {
    hide ControlInv, StreamInv, Enabled, Apply, KeyframeComplete;
    var all, s := labels + [l], After(c, labels);
    RunSnoc(c, labels, l);
    var s' := After(c, all);
    NewSession(c, s, l);
    RelayTimers.EmptyIsIncomplete();
    assert all[..|all|] == all;
    forall k: nat ensures !KeyframeAtStep(c, all, k, s') {
      if KeyframeAtStep(c, all, k, s') {
        if k <= |labels| {
          assert all[..k] == labels[..k];
          RunReaches(c, labels[..k]);
          RunKeepsPumps(c, labels, k);
        }
      }
    }
  }

  lemma NewSession(c: StreamCrypto, s: State, l: Label)
    requires Enabled(s, l) && Adopts(s, l)
    ensures var s' := Apply(c, s, l);
            && s'.sh.keyframeSeen && s'.sh.lan == Some(l.session) && l.session !in s.pumps
            && s'.base == |s'.log| && Session(s') == []
  {
  }

  /** Earlier evidence for the event survives a step that starts no session and clears nothing. */
  lemma OwnStays(c: StreamCrypto, labels: seq<Label>, l: Label)
    requires IsRun(c, labels) && Enabled(After(c, labels), l) && !Adopts(After(c, labels), l) && EventOwn(c, labels)
    ensures IsRun(c, labels + [l]) && EventOwn(c, labels + [l])
  {
    hide ControlInv, StreamInv, Enabled, Apply, KeyframeComplete, KeyframeAtStep;
    var all, s := labels + [l], After(c, labels);
    RunSnoc(c, labels, l);
    RunReaches(c, labels);
    StepEvent(c, s, l);
    assert all[..|all| - 1] == labels;
    if After(c, all).sh.keyframeSeen {
      if KeyframeComplete(After(c, all).sh.buffer) {
        KeyframeNow(c, all);
      } else {
        var k: nat :| KeyframeAtStep(c, labels, k, s);
        KeyframeEarlier(c, all, k, s);
        SameForEvent(c, all, k, s, After(c, all));
      }
    }
  }

  lemma ReadingPumpExists(s: State, l: Label)
    requires Enabled(s, l)
    ensures l.PumpReads? ==> l.p in s.pumps
  {
  }

  /** A foreign event becomes the session's own only when the session's log itself ends in a complete keyframe. */
  lemma ForeignStays(c: StreamCrypto, labels: seq<Label>, l: Label)
    requires IsRun(c, labels) && Enabled(After(c, labels), l) && !Adopts(After(c, labels), l) && !EventOwn(c, labels)
    requires IsRun(c, labels + [l]) && After(c, labels + [l]) == Apply(c, After(c, labels), l)
    requires After(c, labels).base <= |After(c, labels).log|
    ensures EventOwn(c, labels + [l]) <==> Reclaims(c, After(c, labels), l)
  {
    hide ControlInv, StreamInv, Enabled, Apply, KeyframeComplete, Resets, Increment;
    var all, s := labels + [l], After(c, labels);
    ReadingPumpExists(s, l);
    var s' := After(c, all);
    RunReaches(c, labels);
    StepResets(c, s, l);
    if !Resets(s, l) {
      var plain := if l.PumpReads? then Increment(c, s.pumps[l.p].wire, l.raw) else [];
      assert Session(s') == Session(s) + plain;
      assert Session(s) + [] == Session(s);
      ForeignEvidence(c, labels, l, s, s');
      assert labels[..|labels|] == labels && all[..|all|] == all;
      assert KeyframeComplete(Session(s')) ==> KeyframeAtStep(c, all, |all|, s');
      assert KeyframeComplete(Session(s)) ==> KeyframeAtStep(c, labels, |labels|, s);
    }
  }

  /** Evidence of the same session can only be new. */
  lemma ForeignEvidence(c: StreamCrypto, labels: seq<Label>, l: Label, s: State, s': State)
    requires IsRun(c, labels) && IsRun(c, labels + [l]) && s' == After(c, labels + [l])
    requires s'.base == s.base && s'.sh.lan == s.sh.lan && s.base <= |s'.log|
    requires forall k: nat :: !KeyframeAtStep(c, labels, k, s)
    ensures forall k: nat | KeyframeAtStep(c, labels + [l], k, s') :: KeyframeComplete(Session(s'))
  {
    hide KeyframeComplete, Enabled, Apply;
    var all := labels + [l];
    assert all[..|all|] == all;
    forall k: nat | k <= |labels| ensures KeyframeAtStep(c, all, k, s') ==> KeyframeAtStep(c, labels, k, s) {
      assert all[..k] == labels[..k];
    }
  }

  /**
   In every run: a step makes the event of the current session a foreign one exactly if it starts a session while the
   event is set, and makes a foreign event the session's own, or clears it, exactly if it resets the session or the
   session's own log then ends in a complete keyframe.
   */
  lemma EventExactly(c: StreamCrypto, labels: seq<Label>, l: Label)
    requires IsRun(c, labels) && Enabled(After(c, labels), l)
    ensures IsRun(c, labels + [l]) && After(c, labels).base <= |After(c, labels).log|
    ensures var s := After(c, labels);
            EventOwn(c, labels + [l]) <==> if EventOwn(c, labels) then !Adopts(s, l) else Reclaims(c, s, l)
  {
    hide EventOwn, Adopts;
    RunSnoc(c, labels, l);
    RunReaches(c, labels);
    if Adopts(After(c, labels), l) {
      AdoptedIsForeign(c, labels, l);
      AdoptsNotReclaims(c, After(c, labels), l);
    } else if EventOwn(c, labels) {
      OwnStays(c, labels, l);
    } else {
      ForeignStays(c, labels, l);
    }
  }

  lemma AdoptsNotReclaims(c: StreamCrypto, s: State, l: Label)
    requires Enabled(s, l) && Adopts(s, l) && s.base <= |s.log|
    ensures !Reclaims(c, s, l)
  {
  }

  /** A run that leaves no client behind only ever has events of its own sessions. */
  lemma {:induction false} EventIsOwn(c: StreamCrypto, labels: seq<Label>)
    requires IsRun(c, labels) && LosesNothing(c, labels)
    ensures EventOwn(c, labels)
    decreases |labels|
  {
    if labels != [] {
      hide EventOwn, Enabled, Apply;
      var before, l := labels[..|labels| - 1], labels[|labels| - 1];
      EventIsOwn(c, before);
      RunReaches(c, before);
      EventExactly(c, before, l);
      assert before + [l] == labels;
    }
  }

  lemma EmptySessionIsForeign(c: StreamCrypto, labels: seq<Label>)
    requires IsRun(c, labels)
    requires After(c, labels).sh.keyframeSeen && After(c, labels).base == |After(c, labels).log|
    ensures !EventOwn(c, labels)
  {
    hide KeyframeComplete, Enabled, Apply;
    var s := After(c, labels);
    RelayTimers.EmptyIsIncomplete();
    forall k: nat ensures !KeyframeAtStep(c, labels, k, s) {
      if KeyframeAtStep(c, labels, k, s) {
        RelayTheorems.RunEvolves(c, labels, k);
        SameEmptySession(After(c, labels[..k]), s);
      }
    }
  }

  lemma SameEmptySession(r: State, s: State)
    requires r.log <= s.log && r.base == s.base == |s.log| <= |r.log|
    ensures Session(r) == []
  {
  }

  lemma StaleEnter(c: StreamCrypto, s: State)
    requires TwoClients(s, true)
    ensures Enabled(s, Arrive(2, Viewer)) && Enabled(Apply(c, s, Arrive(2, Viewer)), Enter(2, true, 2))
    ensures StaleWait(Apply(c, Apply(c, s, Arrive(2, Viewer)), Enter(2, true, 2)), WaitKeyframe)
  {
    assert PumpAlive(Apply(c, s, Arrive(2, Viewer)));
  }

  /** A viewer waits in a session that starts with the event set. */
  ghost predicate StaleWait(s: State, pc: Pc)
  {
    s.lock.None? && At(s, 2, pc) && s.sh.keyframeSeen && s.base == |s.log| && s.sh.buffer == []
  }

  lemma StaleWake(c: StreamCrypto, s: State)
    requires StaleWait(s, WaitKeyframe)
    ensures Enabled(s, KeyframeWaitOver(2)) && Enabled(Apply(c, s, KeyframeWaitOver(2)), SnapshotTaken(2))
    ensures var s' := Apply(c, Apply(c, s, KeyframeWaitOver(2)), SnapshotTaken(2));
            StaleWait(s', WaitPublish) && s'.tasks[2].delivered == []
  {
  }

  /**
   Otherwise the event need not be the session's own: for every cipher and every handshake that yields a key there is a
   run in which a second session starts with the event set, and wakes a viewer at once, who is given nothing.
   */
  lemma StaleEventRun(c: StreamCrypto, handshake: Frames.Sent, key: Bytes) returns (labels: seq<Label>)
    requires Camera(c, handshake, key)
    ensures IsRun(c, labels) && !EventOwn(c, labels)
    ensures StaleWait(After(c, labels), WaitPublish) && After(c, labels).tasks[2].delivered == []
  {
    hide CameraWire, Reference, EventOwn, TwoClients, StaleWait, Warm;
    var items := LongGroup(2);
    LongGroupPlain(c, key, 2);
    OneMarkerIsOneGroup(PlainSent(items));
    CameraOutput(c, handshake, key, items);
    var last: State;
    labels, last := TwoClientsRun(c, CameraWire(c, handshake, key, items));
    StaleEnter(c, After(c, labels));
    RunSnoc(c, labels, Arrive(2, Viewer));
    labels := labels + [Arrive(2, Viewer)];
    RunSnoc(c, labels, Enter(2, true, 2));
    labels := labels + [Enter(2, true, 2)];
    StaleWake(c, After(c, labels));
    RunSnoc(c, labels, KeyframeWaitOver(2));
    labels := labels + [KeyframeWaitOver(2)];
    RunSnoc(c, labels, SnapshotTaken(2));
    labels := labels + [SnapshotTaken(2)];
    StaleIsForeign(c, labels);
  }

  lemma StaleIsForeign(c: StreamCrypto, labels: seq<Label>)
    requires IsRun(c, labels) && StaleWait(After(c, labels), WaitPublish)
    ensures !EventOwn(c, labels) && 2 in After(c, labels).tasks
  {
    hide EventOwn;
    EmptySessionIsForeign(c, labels);
  }

  // What a woken viewer gets.

  /** A marker starts within the last 64 KB. */
  ghost predicate RecentMarker(x: Bytes)
  {
    exists i | |x| - KEYFRAME_MIN_TAIL_BYTES < i :: KeyframeAt(x, i)
  }

  lemma CompleteSnapshot(x: Bytes)
    requires KeyframeGate.HasKeyframe(x)
    ensures KeyframeGate.HasKeyframe(Snapshot(x)) && KeyframeComplete(Snapshot(x)) == KeyframeComplete(x)
    ensures KeyframeComplete(x) <==> !RecentMarker(x)
  {
    SnapshotShape(x);
    assert KeyframeAt(x, LastKeyframe(x));
    assert forall i | LastKeyframe(x) < i :: !KeyframeAt(x, i);
  }

  /**
   What a viewer woken by its own session's event is given: a snapshot with a keyframe, and with 64 KB behind its last
   marker exactly if no marker starts within the last 64 KB of the session.  If one does, it was pumped after the
   complete keyframe the event stands for.
   */
  lemma WokenViewersBurst(c: StreamCrypto, labels: seq<Label>, v: Id) returns (k: nat)
    requires IsRun(c, labels) && Enabled(After(c, labels), SnapshotTaken(v))
    requires After(c, labels).sh.keyframeSeen && EventOwn(c, labels)
    ensures KeyframeAtStep(c, labels, k, After(c, labels)) && After(c, labels).base <= |After(c, labels).log|
    ensures var s, r := After(c, labels), After(c, labels[..k]);
            && Session(r) <= Session(s)
            && var burst := Apply(c, s, SnapshotTaken(v)).tasks[v].delivered;
               && burst == Snapshot(Session(s)) && KeyframeGate.HasKeyframe(burst)
               && (KeyframeComplete(burst) <==> !RecentMarker(Session(s)))
               && (!KeyframeComplete(burst) ==> LastKeyframe(Session(s)) > LastKeyframe(Session(r)))
  {
    var s := After(c, labels);
    k :| KeyframeAtStep(c, labels, k, s);
    RunReaches(c, labels);
    SnapshotSessions(c, labels, k);
    BurstIsSessions(c, s, v);
    LastKeyframeOfPrefix(Session(After(c, labels[..k])), Session(s));
    CompleteSnapshot(Session(s));
  }

  lemma SnapshotSessions(c: StreamCrypto, labels: seq<Label>, k: nat)
    requires IsRun(c, labels) && KeyframeAtStep(c, labels, k, After(c, labels))
    ensures After(c, labels).base <= |After(c, labels).log|
    ensures Session(After(c, labels[..k])) <= Session(After(c, labels))
    ensures KeyframeComplete(Session(After(c, labels[..k])))
  {
    hide KeyframeComplete, Enabled, Apply;
    RelayTheorems.RunEvolves(c, labels, k);
  }

  lemma BurstIsSessions(c: StreamCrypto, s: State, v: Id)
    requires LogInv(c, s) && Enabled(s, SnapshotTaken(v))
    ensures v in Apply(c, s, SnapshotTaken(v)).tasks
    ensures Apply(c, s, SnapshotTaken(v)).tasks[v].delivered == Snapshot(Session(s))
  {
    hide *;
    SnapshotHandedOut(c, s, v);
    SessionIsCached(c, s);
    SnapshotAgrees(s.sh.buffer, Session(s));
  }

  lemma SnapshotHandedOut(c: StreamCrypto, s: State, v: Id)
    requires Enabled(s, SnapshotTaken(v))
    ensures v in Apply(c, s, SnapshotTaken(v)).tasks
    ensures Apply(c, s, SnapshotTaken(v)).tasks[v].delivered == Snapshot(s.sh.buffer)
  {
    hide Snapshot;
  }

  lemma SessionIsCached(c: StreamCrypto, s: State)
    requires LogInv(c, s)
    ensures s.base <= |s.log| && IsCacheOf(s.sh.buffer, Session(s))
  {
  }

  lemma LastKeyframeOfPrefix(x: Bytes, y: Bytes)
    requires x <= y && KeyframeComplete(x)
    ensures KeyframeGate.HasKeyframe(y) && LastKeyframe(x) <= LastKeyframe(y)
    ensures LastKeyframe(x) == LastKeyframe(y) ==> KeyframeComplete(y)
  {
    assert y == x + y[|x|..];
    LastKeyframeGrows(x, y[|x|..]);
  }

  /** The second marker is the last thing pumped. */
  lemma LateMarker(p: Bytes)
    requires OneMarker(p)
    ensures KeyframeGate.HasKeyframe(p + H264_SPS_3B) && RecentMarker(p + H264_SPS_3B)
  {
    var x, m := p + H264_SPS_3B, H264_SPS_3B;
    var n := |p|;
    assert x[n] == m[0] && x[n + 1] == m[1] && x[n + 2] == m[2] && x[n + 3] == m[3];
    assert KeyframeAt(x, n);
    KeyframeMeansLast(x, n);
  }

  /**
   For every cipher and every handshake that yields a key there is a run in which a viewer waits, is woken by its own
   session's complete keyframe, and is given a burst that ends in a bare marker, because that was pumped before the
   viewer took its snapshot.
   */
  lemma LateKeyframeRun(c: StreamCrypto, handshake: Frames.Sent, key: Bytes) returns (before: seq<Label>, raw: Bytes)
    requires Camera(c, handshake, key)
    ensures IsRun(c, before) && At(After(c, before), 1, WaitKeyframe)
    ensures After(c, before).sh.keyframeSeen && EventOwn(c, before)
    ensures var labels := before + [KeyframeWaitOver(1)] + [PumpReads(0, raw)] + [SnapshotTaken(1)];
            && IsRun(c, labels) && 1 in After(c, labels).tasks
            && var burst := After(c, labels).tasks[1].delivered;
               KeyframeGate.HasKeyframe(burst) && !KeyframeComplete(burst)
  {
    hide Reference, Increment, CameraWire, KeyframeGate.Gate, Video, OneMarker, LongGroup, Awaits, EventOwn,
      KeyframeComplete, Snapshot, RecentMarker, KeyframeGate.HasKeyframe;
    var items := LongGroup(2);
    var p, wire := PlainSent(items), CameraWire(c, handshake, key, items);
    LongGroupPlain(c, key, 2);
    OneMarkerIsOneGroup(p);
    CameraOutput(c, handshake, key, items);
    before := WaitReads(c, wire);
    LongGroupWakes(c, before, wire, p);
    raw := VideoRead(c, handshake, key, items, H264_SPS_3B);
    ViewerWoken(c, After(c, before), wire);
    RunSnoc(c, before, KeyframeWaitOver(1));
    var labels := before + [KeyframeWaitOver(1)];
    WaitRead(c, After(c, labels), wire, WaitSnapshot, raw);
    RunSnoc(c, labels, PumpReads(0, raw));
    labels := labels + [PumpReads(0, raw)];
    WokenSnapshot(c, After(c, labels), wire + raw);
    WholeSession(c, labels, wire + raw, WaitSnapshot);
    RunSnoc(c, labels, SnapshotTaken(1));
    LateMarker(p);
    CompleteSnapshot(p + H264_SPS_3B);
  }

  lemma WholeSession(c: StreamCrypto, labels: seq<Label>, wire: Bytes, pc: Pc)
    requires IsRun(c, labels) && Awaits(After(c, labels), wire, pc)
    ensures var s := After(c, labels);
            s.base == 0 && Session(s) == s.log && Snapshot(s.sh.buffer) == Snapshot(s.log) && At(s, 1, pc)
  {
    hide Snapshot;
    RunReaches(c, labels);
    var s := After(c, labels);
    assert Session(s) == s.log;
    SnapshotAgrees(s.sh.buffer, Session(s));
  }

  lemma LongGroupWakes(c: StreamCrypto, labels: seq<Label>, wire: Bytes, p: Bytes)
    requires IsRun(c, labels) && Awaits(After(c, labels), wire, WaitKeyframe) && After(c, labels).log == p
    requires OneMarker(p) && |p| > KEYFRAME_MIN_TAIL_BYTES
    ensures After(c, labels).sh.keyframeSeen && EventOwn(c, labels) && At(After(c, labels), 1, WaitKeyframe)
  {
    hide *;
    WholeSession(c, labels, wire, WaitKeyframe);
    LongGroupIsComplete(p);
    RelayTimers.CompleteKeyframeWakesViewers(c, labels);
    CompleteIsOwn(c, labels);
  }

  lemma LongGroupIsComplete(p: Bytes)
    requires OneMarker(p) && |p| > KEYFRAME_MIN_TAIL_BYTES
    ensures KeyframeComplete(p)
  {
    OneMarkerIsOneGroup(p);
  }

  lemma CompleteIsOwn(c: StreamCrypto, labels: seq<Label>)
    requires IsRun(c, labels) && After(c, labels).base <= |After(c, labels).log|
    requires KeyframeComplete(Session(After(c, labels)))
    ensures EventOwn(c, labels)
  {
    hide KeyframeComplete, Enabled, Apply;
    assert labels[..|labels|] == labels;
    assert KeyframeAtStep(c, labels, |labels|, After(c, labels));
  }
}
