/** The LAN clients of a relay: which are open, which will still be closed, and which steps lose one. */
module RelayClients {
  import opened ByteStrings
  import opened RelayShared
  import opened StreamSpec
  import opened Relay
  import opened RelayInvariants
  import opened RelayRuns
  import RelayStream
  import RelayTheorems
  import RelayBuffer
  import RelayTimers

  /** The clients somebody will close: the current one, or the one being closed by the owner of the lock. */
  function Tended(s: State): set<Id>
  {
    (if s.sh.lan.Some? then {s.sh.lan.value} else {}) + BeingClosed(s)
  }

  function BeingClosed(s: State): set<Id>
  {
    if s.lock.Some? && s.lock.value in s.tasks && s.tasks[s.lock.value].pc.ClosingLan?
    then {s.tasks[s.lock.value].pc.lan} else {}
  }

  /** Open clients nobody knows any more. */
  function Stray(s: State): set<Id>
  {
    s.clients - Tended(s)
  }

  /** What a step loses: an ended pump's client when a new session starts, or a start that was abandoned. */
  function LeftBehind(s: State, l: Label): set<Id>
  {
    match l
    case LanStarted(_, ok, _, _) => if ok && s.sh.lan.Some? then {s.sh.lan.value} else {}
    case Abandon(_, started) => if started.Some? then {started.value} else {}
    case _ => {}
  }

  /** The current client is open and belongs to the remembered pump, or to the cancelled one; only one is tended. */
  ghost predicate ClientInv(s: State)
  {
    && Tended(s) <= s.clients
    && (BeingClosed(s) != {} ==> s.sh.lan.None?)
    && (s.sh.lan.Some? ==>
          && s.sh.lan.value in s.pumps
          && (s.sh.pumpTask == s.sh.lan || (s.lock.Some? && At(s, s.lock.value, AwaitingPump(s.sh.lan.value)))))
  }

  /** ``s'`` has the clients of ``s`` but for ``lost``. */
  ghost predicate Loses(s: State, s': State, lost: set<Id>)
  {
    ClientInv(s') && Stray(s') == Stray(s) + lost
  }

  lemma ResetLosesNone(s: State, id: Id)
    requires id in s.tasks && s.lock == Some(id) && !s.tasks[id].pc.ClosingLan?
    requires s.sh.lan.Some? ==> s.sh.lan.value in s.clients
    ensures Loses(s, ResetUpstream(s, id), {})
  {
  }

  lemma BeginTeardownLosesNone(s: State, id: Id)
    requires ClientInv(s) && id in s.tasks && !s.tasks[id].pc.ClosingLan? && !s.tasks[id].pc.AwaitingPump?
    requires s.lock.None? || s.lock == Some(id)
    ensures Loses(s, BeginTeardown(s, id), {})
  {
    if !PumpAlive(s) {
      var r := s.(sh := ForgetPump(s.sh), lock := Some(id));
      ResetLosesNone(r, id);
      assert Stray(r) == Stray(s);
    }
  }

  lemma LanClosedLosesNone(c: StreamCrypto, s: State, id: Id)
    requires LockInv(s) && ClientInv(s) && Enabled(s, LanClosed(id))
    ensures Loses(s, Apply(c, s, LanClosed(id)), {})
  {
    assert s.lock == Some(id);
  }

  lemma CommitLoses(s: State, id: Id, session: Id, timer: Id)
    requires ClientInv(s) && id in s.tasks && s.lock == Some(id) && s.tasks[id].pc == StartingLan
    requires FreshClient(s, session)
    ensures Loses(s, CommitSpinUp(s, id, session, timer), if s.sh.lan.Some? then {s.sh.lan.value} else {})
  {
  }

  lemma EnterLosesNone(s: State, id: Id, ok: bool, timer: Id)
    requires LockInv(s) && ClientInv(s) && Enabled(s, Enter(id, ok, timer))
    ensures Loses(s, EnterLocked(s, id, ok, timer), {})
  {
    hide RelayBuffer.Snapshot, Loses;
    var s' := EnterLocked(s, id, ok, timer);
    if s.tasks[id].kind.CloseTimer? {
      var r := s.(sh := s.sh.(closeHandle := None));
      if s.sh.writer.None? && PumpAlive(s) {
        BeginTeardownLosesNone(r, id);
        SameStray(s, r, s');
      } else {
        MoveLosesNone(s, s', id);
      }
    } else if s.tasks[id].kind.Stopper? || (!PumpAlive(s) && !ok) {
      BeginTeardownLosesNone(s, id);
    } else {
      MoveLosesNone(s, s', id);
    }
  }

  lemma SameStray(s: State, r: State, s': State)
    requires Stray(r) == Stray(s)
    ensures Loses(r, s', {}) ==> Loses(s, s', {})
  {
  }

  /** A step outside teardown that moves at most one task, which neither awaits a pump nor closes a client. */
  ghost predicate MovesOne(s: State, s': State, id: Id)
  {
    && s'.clients == s.clients && s'.sh.lan == s.sh.lan && s'.sh.pumpTask == s.sh.pumpTask
    && s'.pumps.Keys == s.pumps.Keys && s.tasks.Keys <= s'.tasks.Keys
    && (forall t | t in s.tasks :: t == id || s'.tasks[t].pc == s.tasks[t].pc)
    && (id in s'.tasks && (id in s.tasks ==> s'.tasks[id].pc != s.tasks[id].pc) ==>
          && !Tending(s'.tasks[id].pc) && (id in s.tasks ==> !Tending(s.tasks[id].pc))
          && (s'.lock == s.lock || s.lock.None? || s.lock == Some(id)))
    && (s'.lock == s.lock || (s.lock.None? && s'.lock == Some(id))
        || (s.lock == Some(id) && s'.lock.None? && id in s.tasks && !Tending(s.tasks[id].pc)))
  }

  predicate Tending(pc: Pc)
  {
    pc.AwaitingPump? || pc.ClosingLan?
  }

  /** The usual case: one task moves outside the lock, or lets go of it. */
  lemma OneTaskMoves(s: State, s': State, id: Id)
    requires LockInv(s) && id in s'.tasks && s'.tasks == s.tasks[id := s'.tasks[id]]
    requires s'.clients == s.clients && s'.sh.lan == s.sh.lan && s'.sh.pumpTask == s.sh.pumpTask && s'.pumps == s.pumps
    requires id !in s.tasks || s'.tasks[id].pc == s.tasks[id].pc || !Tending(s.tasks[id].pc)
    requires (id in s.tasks && s'.tasks[id].pc == s.tasks[id].pc) || !Tending(s'.tasks[id].pc)
    requires s'.lock == s.lock || (s.lock == Some(id) && s'.lock.None? && !Tending(s.tasks[id].pc))
    ensures MovesOne(s, s', id)
  {
  }

  lemma MoveLosesNone(s: State, s': State, id: Id)
    requires LockInv(s) && ClientInv(s) && MovesOne(s, s', id)
    ensures Loses(s, s', {})
  {
  }

  lemma SpinUpLoses(c: StreamCrypto, s: State, l: Label)
    requires LockInv(s) && ClientInv(s) && Enabled(s, l) && RelayStream.TeardownLabel(l)
    ensures Loses(s, Apply(c, s, l), LeftBehind(s, l))
  {
    assert s.lock == Some(l.id);
    hide Loses;
    match l
    case KeyFetched(id, ok) =>
      if ok { MoveLosesNone(s, Apply(c, s, l), id); } else { BeginTeardownLosesNone(s, id); }
    case LanStarted(id, ok, session, timer) =>
      if ok { CommitLoses(s, id, session, timer); } else { BeginTeardownLosesNone(s, id); }
    case PumpAwaited(id) => ResetLosesNone(s, id);
    case LanClosed(id) => LanClosedLosesNone(c, s, id);
  }

  lemma AbandonLoses(c: StreamCrypto, s: State, id: Id, started: Option<Id>)
    requires LockInv(s) && ClientInv(s) && Enabled(s, Abandon(id, started))
    ensures Loses(s, Apply(c, s, Abandon(id, started)), LeftBehind(s, Abandon(id, started)))
  {
    var lost := LeftBehind(s, Abandon(id, started));
    var r := s.(clients := s.clients + lost);
    MoveLosesNone(r, Apply(c, s, Abandon(id, started)), id);
    assert Stray(r) == Stray(s) + lost;
  }

  lemma PumpLosesNone(c: StreamCrypto, s: State, l: Label)
    requires LockInv(s) && ClientInv(s) && Enabled(s, l) && PumpLabel(l)
    ensures Loses(s, Apply(c, s, l), {})
  {
    hide Increment, RelayBuffer.KeyframeComplete, RelayBuffer.Absorbed, Loses;
    if l.PumpReads? {
      ForwardMovesNobody(s, Increment(c, s.pumps[l.p].wire, l.raw));
    }
    MoveLosesNone(s, Apply(c, s, l), l.p);
  }

  lemma ArrivalLosesNone(c: StreamCrypto, s: State, l: Label)
    requires LockInv(s) && ClientInv(s) && Enabled(s, l) && (l.Arrive? || l.Fire?)
    ensures Loses(s, Apply(c, s, l), {})
  {
    hide Loses, ClientInv, MovesOne;
    OneTaskMoves(s, Apply(c, s, l), l.id);
    MoveLosesNone(s, Apply(c, s, l), l.id);
  }

  lemma BriefLosesNone(c: StreamCrypto, s: State, l: Label)
    requires LockInv(s) && ClientInv(s) && Enabled(s, l) && (l.Publish? || l.Cleanup?)
    ensures Loses(s, Apply(c, s, l), {})
  {
    hide Loses, ClientInv, MovesOne;
    OneTaskMoves(s, Apply(c, s, l), l.id);
    MoveLosesNone(s, Apply(c, s, l), l.id);
  }

  lemma OtherLosesNone(c: StreamCrypto, s: State, l: Label)
    requires LockInv(s) && ClientInv(s) && Enabled(s, l)
    requires !RelayStream.TeardownLabel(l) && !PumpLabel(l) && !BriefLabel(l)
    requires !l.Enter? && !l.Arrive? && !l.Fire?
    ensures Loses(s, Apply(c, s, l), {})
  {
    hide RelayBuffer.Snapshot, Loses, ClientInv, MovesOne;
    OneTaskMoves(s, Apply(c, s, l), l.id);
    MoveLosesNone(s, Apply(c, s, l), l.id);
  }

  lemma StepLoses(c: StreamCrypto, s: State, l: Label)
    requires ControlInv(s) && ClientInv(s) && Enabled(s, l)
    ensures Loses(s, Apply(c, s, l), LeftBehind(s, l))
  {
    hide Loses, ClientInv, LockInv, KindInv, WriterInv, PumpInv, TimerInv;
    if l.Enter? {
      EnterLosesNone(s, l.id, l.ok, l.timer);
    } else if RelayStream.TeardownLabel(l) {
      SpinUpLoses(c, s, l);
    } else if PumpLabel(l) {
      PumpLosesNone(c, s, l);
    } else if l.Abandon? {
      AbandonLoses(c, s, l.id, l.started);
    } else if BriefLabel(l) {
      BriefLosesNone(c, s, l);
    } else if l.Arrive? || l.Fire? {
      ArrivalLosesNone(c, s, l);
    } else {
      OtherLosesNone(c, s, l);
    }
  }

  // Over runs.

  lemma {:induction false} RunKeepsClients(c: StreamCrypto, labels: seq<Label>)
    requires IsRun(c, labels)
    ensures ClientInv(After(c, labels))
    decreases |labels|
  {
    if labels != [] {
      var before, l := labels[..|labels| - 1], labels[|labels| - 1];
      RunKeepsClients(c, before);
      RelayTheorems.RunKeepsInvariants(c, before);
      StepLoses(c, After(c, before), l);
    }
  }

  /**
   In every reachable state a step leaves an open client behind, which nobody closes any more, exactly when a session
   starts while the client of an ended pump is still there, or when a start is abandoned; at most one is not lost.
   */
  lemma ClientsLost(c: StreamCrypto, labels: seq<Label>, l: Label)
    requires IsRun(c, labels) && Enabled(After(c, labels), l)
    ensures var s := After(c, labels);
            && Stray(Apply(c, s, l)) == Stray(s) + LeftBehind(s, l) && Stray(s) !! LeftBehind(s, l)
            && Tended(s) <= s.clients && (forall p, q | p in Tended(s) && q in Tended(s) :: p == q)
            && (l.LanStarted? && s.sh.lan.Some? ==>
                  s.sh.pumpTask == s.sh.lan && s.sh.lan.value in s.pumps && s.pumps[s.sh.lan.value].phase == Ended)
  {
    hide Enabled, Apply, ControlInv, RelayStream.StreamInv;
    RunKeepsClients(c, labels);
    RelayTheorems.RunKeepsInvariants(c, labels);
    StepLoses(c, After(c, labels), l);
    LostWasTended(After(c, labels), l);
  }

  lemma LostWasTended(s: State, l: Label)
    requires ControlInv(s) && ClientInv(s) && Enabled(s, l)
    ensures Stray(s) !! LeftBehind(s, l)
    ensures l.LanStarted? && s.sh.lan.Some? ==>
              s.sh.pumpTask == s.sh.lan && s.sh.lan.value in s.pumps && s.pumps[s.sh.lan.value].phase == Ended
  {
    if l.LanStarted? {
      assert PumpAllows(s, s.tasks[l.id].pc) && s.lock == Some(l.id);
    }
  }

  ghost predicate LosesNothing(c: StreamCrypto, labels: seq<Label>)
    requires IsRun(c, labels)
    decreases |labels|
  {
    labels == [] ||
    (var before := labels[..|labels| - 1];
     LosesNothing(c, before) && LeftBehind(After(c, before), labels[|labels| - 1]) == {})
  }

  /** A run without such a step, and no other, keeps every open client in somebody's hands: at most one is open. */
  lemma {:induction false} OneClientOpen(c: StreamCrypto, labels: seq<Label>)
    requires IsRun(c, labels)
    ensures LosesNothing(c, labels) <==> Stray(After(c, labels)) == {}
    ensures LosesNothing(c, labels) ==>
              forall p, q | p in After(c, labels).clients && q in After(c, labels).clients :: p == q
    decreases |labels|
  {
    RunKeepsClients(c, labels);
    if labels != [] {
      var before, l := labels[..|labels| - 1], labels[|labels| - 1];
      OneClientOpen(c, before);
      ClientsLost(c, before, l);
    }
    if Stray(After(c, labels)) == {} {
      OpenIfNotStray(After(c, labels));
    }
  }

  lemma OpenIfNotStray(s: State)
    requires ClientInv(s) && Stray(s) == {}
    ensures s.clients == Tended(s) && forall p, q | p in s.clients && q in s.clients :: p == q
  {
    assert forall p | p in s.clients :: p in Stray(s) || p in Tended(s);
  }

  lemma NextSession(c: StreamCrypto, s: State, wire: Bytes)
    requires Warm(s, wire)
    ensures Enabled(s, PumpEnds(0))
    ensures var r := Apply(c, s, PumpEnds(0));
            && Enabled(r, Arrive(1, Prewarm(60.0)))
            && Reconnects(Apply(c, r, Arrive(1, Prewarm(60.0))), s.sh.keyframeSeen)
  {
  }

  /** The old pump has ended, and a second prewarm call waits for the lock. */
  ghost predicate Reconnects(s: State, seen: bool)
  {
    && s.lock.None? && s.tasks.Keys == {0, 1} && s.tasks[1] == Task(Prewarm(60.0), Waiting, [], None, false)
    && s.pumps.Keys == {0} && !PumpAlive(s) && s.sh.lan == Some(0) && s.clients == {0}
    && s.sh.timers == {0} && s.sh.closeHandle == Some(0) && s.sh.keyframeSeen == seen
  }

  lemma SecondStart(c: StreamCrypto, s: State, seen: bool)
    requires Reconnects(s, seen)
    ensures Enabled(s, Enter(1, true, 1)) && Enabled(Apply(c, s, Enter(1, true, 1)), KeyFetched(1, true))
    ensures var r := Apply(c, Apply(c, s, Enter(1, true, 1)), KeyFetched(1, true));
            Enabled(r, LanStarted(1, true, 1, 1)) && TwoClients(Apply(c, r, LanStarted(1, true, 1, 1)), seen)
  {
  }

  /** The second session is open and has produced nothing; nobody knows the first one's client any more. */
  ghost predicate TwoClients(s: State, seen: bool)
  {
    && s.clients == {0, 1} && s.sh.lan == Some(1) && Stray(s) == {0}
    && s.base == |s.log| && s.sh.buffer == [] && s.sh.keyframeSeen == seen
    && s.lock.None? && s.sh.pumpTask == Some(1) && s.pumps.Keys == {0, 1} && PumpAlive(s)
    && s.tasks.Keys == {0, 1} && s.sh.timers == {1} && s.sh.closeHandle == Some(1)
  }

  /** The camera closes the stream, and the next prewarm call opens a second client: the first is never closed. */
  lemma TwoClientsRun(c: StreamCrypto, wire: Bytes) returns (labels: seq<Label>, last: State)
    ensures IsRun(c, labels) && TwoClients(After(c, labels), last.sh.keyframeSeen)
    ensures Warm(last, wire) && last.log == Reference(c, wire)
    ensures RelayBuffer.KeyframeComplete(Reference(c, wire)) ==> last.sh.keyframeSeen
  {
    hide Warm, Reconnects, TwoClients, Reference, RelayBuffer.KeyframeComplete;
    labels := WarmReads(c, wire);
    last := After(c, labels);
    EventSet(c, labels, wire);
    NextSession(c, last, wire);
    RunSnoc(c, labels, PumpEnds(0));
    labels := labels + [PumpEnds(0)];
    RunSnoc(c, labels, Arrive(1, Prewarm(60.0)));
    labels := labels + [Arrive(1, Prewarm(60.0))];
    SecondStart(c, After(c, labels), last.sh.keyframeSeen);
    RunSnoc(c, labels, Enter(1, true, 1));
    labels := labels + [Enter(1, true, 1)];
    RunSnoc(c, labels, KeyFetched(1, true));
    labels := labels + [KeyFetched(1, true)];
    RunSnoc(c, labels, LanStarted(1, true, 1, 1));
    labels := labels + [LanStarted(1, true, 1, 1)];
  }

  lemma EventSet(c: StreamCrypto, labels: seq<Label>, wire: Bytes)
    requires IsRun(c, labels) && Warm(After(c, labels), wire) && After(c, labels).log == Reference(c, wire)
    ensures RelayBuffer.KeyframeComplete(Reference(c, wire)) ==> After(c, labels).sh.keyframeSeen
  {
    hide Reference, RelayBuffer.KeyframeComplete;
    RelayTimers.CompleteKeyframeWakesViewers(c, labels);
    var s := After(c, labels);
    assert s.log[0..] == s.log;
  }
}
