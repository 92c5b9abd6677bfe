/** What every step of the relay keeps. */
module RelayInvariants {
  import opened ByteStrings
  import RelayBuffer
  import opened RelayShared
  import opened StreamSpec
  import opened Relay

  // Control: the lock, the published writer and the pump tasks.

  /** The lock is held exactly by the task suspended inside a locked section. */
  ghost predicate LockInv(s: State)
  {
    && (s.lock.Some? ==> s.lock.value in s.tasks)
    && (forall t | t in s.tasks :: HoldsLock(s.tasks[t].pc) <==> s.lock == Some(t))
  }

  predicate KindAllows(kind: Kind, pc: Pc)
  {
    match pc
    case Waiting | AwaitingPump(_) | ClosingLan(_) | Done => true
    case FetchingKey | StartingLan => kind.Viewer? || kind.Prewarm?
    case _ => kind.Viewer?
  }

  ghost predicate KindInv(s: State)
  {
    forall t | t in s.tasks :: KindAllows(s.tasks[t].kind, s.tasks[t].pc)
  }

  predicate Publishes(t: Task)
  {
    t.kind.Viewer? && (t.pc == Attached || t.pc == WaitCleanup)
  }

  /** The published writer belongs to a viewer between its attach and its cleanup. */
  ghost predicate WriterInv(s: State)
  {
    s.sh.writer.Some? ==> s.sh.writer.value in s.tasks && Publishes(s.tasks[s.sh.writer.value])
  }

  ghost predicate PumpInv(s: State)
  {
    && (s.sh.pumpTask.Some? ==> s.sh.pumpTask.value in s.pumps && !s.pumps[s.sh.pumpTask.value].cancelled)
    && (forall p: Id | Alive(s, p) ::
          s.sh.pumpTask == Some(p) || (s.lock.Some? && At(s, s.lock.value, AwaitingPump(p))))
    && (forall t | t in s.tasks :: PumpAllows(s, s.tasks[t].pc))
  }

  predicate PumpAllows(s: State, pc: Pc)
  {
    match pc
    case AwaitingPump(p) => p in s.pumps && s.pumps[p].cancelled && s.sh.pumpTask.None?
    case FetchingKey | StartingLan => !PumpAlive(s)
    case ClosingLan(_) | FailClosing => s.sh.pumpTask.None?
    case _ => true
  }

  /** The close timer tears down only while nobody watches. */
  ghost predicate TimerInv(s: State)
  {
    forall t | t in s.tasks && s.tasks[t].kind.CloseTimer? && HoldsLock(s.tasks[t].pc) :: s.sh.writer.None?
  }

  ghost predicate ControlInv(s: State)
  {
    LockInv(s) && KindInv(s) && WriterInv(s) && PumpInv(s) && TimerInv(s)
  }

  /** Control does not depend on bytes, timers or the LAN object. */
  ghost predicate SameControl(s: State, s': State)
  {
    && s'.lock == s.lock && s'.tasks == s.tasks && s'.pumps == s.pumps
    && s'.sh.writer == s.sh.writer && s'.sh.pumpTask == s.sh.pumpTask
  }

  lemma ControlFrame(s: State, s': State)
    requires ControlInv(s) && SameControl(s, s')
    ensures ControlInv(s')
  {
  }

  // Steps outside the lock.

  lemma FreeMove(s: State, id: Id, t: Task)
    requires ControlInv(s) && (id in s.tasks ==> s.tasks[id].kind == t.kind && !HoldsLock(s.tasks[id].pc))
    requires !HoldsLock(t.pc) && KindAllows(t.kind, t.pc)
    requires s.sh.writer == Some(id) ==> Publishes(t)
    ensures ControlInv(WithTask(s, id, t))
  {
    var s' := WithTask(s, id, t);
    assert forall p | Alive(s', p) :: Alive(s, p);
  }

  lemma PumpMove(s: State, p: Id, pump: Pump)
    requires ControlInv(s) && p in s.pumps && pump.cancelled == s.pumps[p].cancelled
    requires pump.phase != Ended ==> Alive(s, p)
    ensures ControlInv(WithPump(s, p, pump))
  {
    var s' := WithPump(s, p, pump);
    assert forall q | Alive(s', q) :: Alive(s, q);
  }

  lemma WriterDropped(s: State, w: Id)
    requires ControlInv(s)
    ensures ControlInv(s.(sh := DropWriter(s.sh, w)))
  {
    var s' := s.(sh := DropWriter(s.sh, w));
    assert forall p | Alive(s', p) :: Alive(s, p);
  }

  /** Handing bytes to viewers moves no task. */
  lemma TasksFed(s: State, s': State)
    requires ControlInv(s) && s'.tasks.Keys == s.tasks.Keys
    requires forall t | t in s.tasks :: s'.tasks[t].kind == s.tasks[t].kind && s'.tasks[t].pc == s.tasks[t].pc
    requires s'.lock == s.lock && s'.pumps == s.pumps && s'.sh.writer == s.sh.writer && s'.sh.pumpTask == s.sh.pumpTask
    ensures ControlInv(s')
  {
    assert forall p | Alive(s', p) :: Alive(s, p);
  }

  // Steps inside the lock: nobody else is in a locked section, and ``id`` ends up in a state that fits.

  ghost predicate Others(s: State, id: Id)
  {
    && (s.lock.None? || s.lock == Some(id))
    && (forall t | t in s.tasks && t != id :: !HoldsLock(s.tasks[t].pc) && KindAllows(s.tasks[t].kind, s.tasks[t].pc))
    && (s.sh.writer.Some? && s.sh.writer != Some(id) ==>
          s.sh.writer.value in s.tasks && Publishes(s.tasks[s.sh.writer.value]))
    && (s.sh.pumpTask.Some? ==> s.sh.pumpTask.value in s.pumps && !s.pumps[s.sh.pumpTask.value].cancelled)
  }

  ghost predicate Fits(s: State, id: Id, t: Task)
  {
    && (HoldsLock(t.pc) <==> s.lock == Some(id))
    && KindAllows(t.kind, t.pc)
    && PumpAllows(s, t.pc)
    && (s.sh.writer == Some(id) ==> Publishes(t))
    && (t.kind.CloseTimer? && HoldsLock(t.pc) ==> s.sh.writer.None?)
    && (forall p: Id | Alive(s, p) :: s.sh.pumpTask == Some(p) || t.pc == AwaitingPump(p))
  }

  lemma Settle(s: State, id: Id, t: Task)
    requires Others(s, id) && Fits(s, id, t)
    ensures ControlInv(WithTask(s, id, t))
  {
    var s' := WithTask(s, id, t);
    assert forall p | Alive(s', p) :: Alive(s, p);
    assert PumpAlive(s') == PumpAlive(s);
  }

  lemma OthersOfControl(s: State, id: Id)
    requires ControlInv(s) && id in s.tasks && (s.lock.None? || s.lock == Some(id))
    ensures Others(s, id)
    ensures !s.tasks[id].pc.AwaitingPump? ==> forall p: Id | Alive(s, p) :: s.sh.pumpTask == Some(p)
  {
  }

  /** No pump task is left, or will be once the cancelled one has ended. */
  lemma EndTeardownKeeps(s: State, id: Id)
    requires Others(s, id) && s.lock == Some(id) && id in s.tasks
    requires s.sh.pumpTask.None? && (forall p: Id :: !Alive(s, p)) && s.sh.writer != Some(id)
    ensures ControlInv(EndTeardown(s, id))
  {
    var t := s.tasks[id];
    if t.kind.Viewer? {
      Settle(s, id, t.(pc := FailClosing, closing := true));
    } else {
      var r := s.(lock := None);
      assert forall p: Id :: Alive(r, p) == Alive(s, p);
      Settle(r, id, t.(pc := Done));
    }
  }

  lemma ResetKeeps(s: State, id: Id)
    requires Others(s, id) && s.lock == Some(id) && id in s.tasks
    requires s.sh.pumpTask.None? && (forall p: Id :: !Alive(s, p)) && s.sh.writer != Some(id)
    requires s.tasks[id].kind.CloseTimer? ==> s.sh.writer.None?
    ensures ControlInv(ResetUpstream(s, id))
  {
    var r := s.(sh := ResetSession(s.sh), base := |s.log|);
    assert forall p: Id :: Alive(r, p) == Alive(s, p);
    if s.sh.lan.Some? {
      Settle(r, id, r.tasks[id].(pc := ClosingLan(s.sh.lan.value)));
    } else {
      EndTeardownKeeps(r, id);
    }
  }

  lemma TeardownKeeps(s: State, id: Id)
    requires Others(s, id) && id in s.tasks
    requires (forall p: Id | Alive(s, p) :: s.sh.pumpTask == Some(p)) && s.sh.writer != Some(id)
    requires s.tasks[id].kind.CloseTimer? ==> s.sh.writer.None?
    ensures ControlInv(BeginTeardown(s, id))
  {
    var r := s.(sh := ForgetPump(s.sh), lock := Some(id));
    if PumpAlive(s) {
      var p := s.sh.pumpTask.value;
      var r' := WithPump(r, p, s.pumps[p].(cancelled := true));
      assert forall q: Id :: Alive(r', q) == Alive(s, q);
      Settle(r', id, r'.tasks[id].(pc := AwaitingPump(p)));
    } else {
      assert forall q: Id :: Alive(r, q) == Alive(s, q);
      ResetKeeps(r, id);
    }
  }

  lemma SpinUpKeeps(s: State, id: Id, ok: bool)
    requires Others(s, id) && id in s.tasks && (s.tasks[id].kind.Viewer? || s.tasks[id].kind.Prewarm?)
    requires (forall p: Id | Alive(s, p) :: s.sh.pumpTask == Some(p)) && s.sh.writer != Some(id) && !PumpAlive(s)
    ensures ControlInv(BeginSpinUp(s, id, ok))
  {
    if ok {
      var r := s.(lock := Some(id));
      assert forall p: Id :: Alive(r, p) == Alive(s, p);
      Settle(r, id, r.tasks[id].(pc := FetchingKey));
    } else {
      TeardownKeeps(s, id);
    }
  }

  lemma GiveBurstKeeps(s: State, id: Id, whenEmpty: Pc)
    requires ControlInv(s) && id in s.tasks && s.tasks[id].kind.Viewer? && !HoldsLock(s.tasks[id].pc)
    requires s.sh.writer != Some(id) && (whenEmpty == WaitKeyframe || whenEmpty == WaitPublish)
    ensures ControlInv(GiveBurst(s, id, whenEmpty))
  {
    var r := GiveBurst(s, id, whenEmpty);
    FreeMove(s, id, r.tasks[id]);
  }

  lemma EnterKeeps(s: State, id: Id, ok: bool, timer: Id)
    requires ControlInv(s) && Enabled(s, Enter(id, ok, timer))
    ensures ControlInv(EnterLocked(s, id, ok, timer))
  {
    hide LockInv, KindInv, TimerInv, PumpInv, RelayBuffer.Snapshot;
    OthersOfControl(s, id);
    match s.tasks[id].kind
    case Viewer =>
      if PumpAlive(s) {
        var r := s.(sh := CancelClose(s.sh));
        ControlFrame(s, r);
        GiveBurstKeeps(r, id, WaitKeyframe);
      } else {
        SpinUpKeeps(s, id, ok);
      }
    case Prewarm(hold) =>
      if PumpAlive(s) {
        var r := s.(sh := RescheduleClose(s.sh, hold, timer));
        ControlFrame(s, r);
        FreeMove(r, id, r.tasks[id].(pc := Done));
      } else {
        SpinUpKeeps(s, id, ok);
      }
    case CloseTimer =>
      var r := s.(sh := s.sh.(closeHandle := None));
      ControlFrame(s, r);
      OthersOfControl(r, id);
      if r.sh.writer.Some? || !PumpAlive(r) {
        FreeMove(r, id, r.tasks[id].(pc := Done));
      } else {
        TeardownKeeps(r, id);
      }
    case Stopper => TeardownKeeps(s, id);
  }

  lemma PumpAdded(s: State, r: State, id: Id, session: Id)
    requires Others(s, id) && session !in s.pumps && (forall p: Id :: !Alive(s, p))
    requires r.pumps == s.pumps[session := Pump(Created, false, [])] && r.sh.pumpTask == Some(session)
    requires r.tasks == s.tasks && r.lock.None? && r.sh.writer == s.sh.writer
    ensures Others(r, id) && forall p: Id | Alive(r, p) :: r.sh.pumpTask == Some(p)
  {
    assert forall p: Id | Alive(r, p) :: p == session || Alive(s, p);
  }

  lemma OwnerFacts(s: State, id: Id)
    requires ControlInv(s) && id in s.tasks && HoldsLock(s.tasks[id].pc)
    ensures s.lock == Some(id) && Others(s, id) && s.sh.writer != Some(id)
    ensures KindAllows(s.tasks[id].kind, s.tasks[id].pc) && PumpAllows(s, s.tasks[id].pc)
    ensures !s.tasks[id].pc.AwaitingPump? ==> forall p: Id | Alive(s, p) :: s.sh.pumpTask == Some(p)
  {
    OthersOfControl(s, id);
  }

  lemma CommitKeeps(s: State, id: Id, session: Id, timer: Id)
    requires ControlInv(s) && Enabled(s, LanStarted(id, true, session, timer))
    ensures ControlInv(CommitSpinUp(s, id, session, timer))
  {
    hide ControlInv;
    OwnerFacts(s, id);
    var r := CommitSpinUp(s, id, session, timer);
    var r0 := r.(tasks := s.tasks);
    PumpAdded(s, r0, id, session);
    assert r.tasks == s.tasks[id := r.tasks[id]];
    Settle(r0, id, r.tasks[id]);
  }

  lemma LanStartedKeeps(s: State, id: Id, ok: bool, session: Id, timer: Id)
    requires ControlInv(s) && Enabled(s, LanStarted(id, ok, session, timer))
    ensures ControlInv(if ok then CommitSpinUp(s, id, session, timer) else BeginTeardown(s, id))
  {
    if ok {
      CommitKeeps(s, id, session, timer);
    } else {
      OthersOfControl(s, id);
      TeardownKeeps(s, id);
    }
  }

  lemma ForwardMovesNobody(s: State, plain: Bytes)
    ensures Forward(s, plain).Keys == s.tasks.Keys
    ensures forall t | t in s.tasks ::
              Forward(s, plain)[t].kind == s.tasks[t].kind && Forward(s, plain)[t].pc == s.tasks[t].pc
  {
  }

  lemma AbsorbKeeps(s: State, p: Id, fed: Pump, plain: Bytes)
    requires ControlInv(s) && Alive(s, p) && fed.cancelled == s.pumps[p].cancelled
    ensures ControlInv(AbsorbAndForward(s, p, fed, plain))
  {
    var s' := AbsorbAndForward(s, p, fed, plain);
    var r := WithPump(s, p, s'.pumps[p]);
    assert s'.pumps == r.pumps;
    PumpMove(s, p, s'.pumps[p]);
    ForwardMovesNobody(s, plain);
    TasksFed(r, s');
  }

  lemma PumpStepKeeps(c: StreamCrypto, s: State, p: Id, raw: Bytes)
    requires ControlInv(s) && Enabled(s, PumpReads(p, raw))
    ensures ControlInv(PumpStep(c, s, p, raw))
  {
    var fed := s.pumps[p].(wire := s.pumps[p].wire + raw);
    PumpMove(s, p, fed);
    AbsorbKeeps(s, p, fed, Increment(c, s.pumps[p].wire, raw));
  }

  lemma UnlockedMoveKeeps(s: State, id: Id, t: Task)
    requires ControlInv(s) && s.lock.None? && id in s.tasks && t.kind.Viewer? && s.tasks[id].kind.Viewer?
    requires t.pc == Attached
    ensures ControlInv(WithTask(s.(sh := s.sh.(writer := Some(id))), id, t))
  {
    OthersOfControl(s, id);
    var r := s.(sh := s.sh.(writer := Some(id)));
    assert forall p: Id :: Alive(r, p) == Alive(s, p);
    Settle(r, id, t);
  }

  lemma CleanupKeeps(s: State, id: Id, timer: Id, t: Task)
    requires ControlInv(s) && s.lock.None? && id in s.tasks && t.kind == s.tasks[id].kind == Viewer && t.pc == Closing
    ensures ControlInv(WithTask(s.(sh := DetachViewer(s.sh, id, timer)), id, t))
  {
    OthersOfControl(s, id);
    var r := s.(sh := DetachViewer(s.sh, id, timer));
    assert forall p: Id :: Alive(r, p) == Alive(s, p);
    Settle(r, id, t);
  }

  lemma ReleaseKeeps(s: State, id: Id)
    requires ControlInv(s) && id in s.tasks && HoldsLock(s.tasks[id].pc) && !s.tasks[id].pc.AwaitingPump?
    ensures ControlInv(Goto(s.(lock := None), id, Done))
  {
    OthersOfControl(s, id);
    var r := s.(lock := None);
    assert forall p: Id :: Alive(r, p) == Alive(s, p);
    Settle(r, id, r.tasks[id].(pc := Done));
  }

  lemma KeyFetchedKeeps(s: State, id: Id, ok: bool)
    requires ControlInv(s) && At(s, id, FetchingKey)
    ensures ControlInv(if ok then Goto(s, id, StartingLan) else BeginTeardown(s, id))
  {
    OthersOfControl(s, id);
    assert PumpAllows(s, FetchingKey);
    if ok {
      Settle(s, id, s.tasks[id].(pc := StartingLan));
    } else {
      TeardownKeeps(s, id);
    }
  }

  lemma PumpAwaitedKeeps(s: State, id: Id)
    requires ControlInv(s) && Enabled(s, PumpAwaited(id))
    ensures ControlInv(ResetUpstream(s, id))
  {
    OthersOfControl(s, id);
    assert PumpAllows(s, s.tasks[id].pc);
    ResetKeeps(s, id);
  }

  lemma LanClosedKeeps(s: State, id: Id)
    requires ControlInv(s) && Enabled(s, LanClosed(id))
    ensures ControlInv(EndTeardown(s.(clients := s.clients - {s.tasks[id].pc.lan}), id))
  {
    var r := s.(clients := s.clients - {s.tasks[id].pc.lan});
    ControlFrame(s, r);
    OthersOfControl(r, id);
    assert PumpAllows(r, r.tasks[id].pc);
    EndTeardownKeeps(r, id);
  }

  lemma TransportClosesKeeps(s: State, id: Id)
    requires ControlInv(s) && id in s.tasks
    ensures ControlInv(WithTask(s, id, s.tasks[id].(closing := true)))
  {
    TasksFed(s, WithTask(s, id, s.tasks[id].(closing := true)));
  }

  predicate LockedLabel(l: Label)
  {
    || l.Enter? || l.KeyFetched? || l.LanStarted? || l.PumpAwaited? || l.LanClosed? || l.FailClosed?
  }

  predicate BriefLabel(l: Label)
  {
    l.Publish? || l.Cleanup? || l.Abandon?
  }

  predicate PumpLabel(l: Label)
  {
    l.PumpStarts? || l.PumpReads? || l.PumpWrote? || l.PumpEnds?
  }

  lemma LockedStepKeepsControl(c: StreamCrypto, s: State, l: Label)
    requires ControlInv(s) && Enabled(s, l) && LockedLabel(l)
    ensures ControlInv(Apply(c, s, l))
  {
    hide LockInv, PumpInv, TimerInv;
    match l
    case Enter(id, ok, timer) => EnterKeeps(s, id, ok, timer);
    case KeyFetched(id, ok) => KeyFetchedKeeps(s, id, ok);
    case LanStarted(id, ok, session, timer) => LanStartedKeeps(s, id, ok, session, timer);
    case PumpAwaited(id) => PumpAwaitedKeeps(s, id);
    case LanClosed(id) => LanClosedKeeps(s, id);
    case FailClosed(id) => ReleaseKeeps(s, id);
  }

  /** Steps that take the lock and let go of it at once, and cancellations. */
  lemma BriefStepKeepsControl(c: StreamCrypto, s: State, l: Label)
    requires ControlInv(s) && Enabled(s, l) && BriefLabel(l)
    ensures ControlInv(Apply(c, s, l))
  {
    assert KindAllows(s.tasks[l.id].kind, s.tasks[l.id].pc);
    hide ControlInv;
    match l
    case Publish(id) => UnlockedMoveKeeps(s, id, Apply(c, s, l).tasks[id]);
    case Cleanup(id, timer) => CleanupKeeps(s, id, timer, s.tasks[id].(pc := Closing, closing := true));
    case Abandon(id, started) => AbandonKeeps(c, s, id, started);
  }

  lemma AbandonKeeps(c: StreamCrypto, s: State, id: Id, started: Option<Id>)
    requires ControlInv(s) && Enabled(s, Abandon(id, started))
    ensures ControlInv(Apply(c, s, Abandon(id, started)))
  {
    hide LockInv, PumpInv, TimerInv;
    var r := s.(clients := s.clients + (if started.Some? then {started.value} else {}));
    ControlFrame(s, r);
    if HoldsLock(r.tasks[id].pc) { ReleaseKeeps(r, id); } else { FreeMove(r, id, r.tasks[id].(pc := Done)); }
  }

  lemma PumpStepKeepsControl(c: StreamCrypto, s: State, l: Label)
    requires ControlInv(s) && Enabled(s, l) && PumpLabel(l)
    ensures ControlInv(Apply(c, s, l))
  {
    hide ControlInv;
    match l
    case PumpStarts(p) => PumpMove(s, p, s.pumps[p].(phase := if s.sh.lan.None? then Ended else Reading));
    case PumpReads(p, raw) => PumpStepKeeps(c, s, p, raw);
    case PumpWrote(p, ok) =>
      var r := WithPump(s, p, s.pumps[p].(phase := Reading));
      PumpMove(s, p, s.pumps[p].(phase := Reading));
      WriterDropped(r, s.pumps[p].phase.viewer);
    case PumpEnds(p) => PumpMove(s, p, s.pumps[p].(phase := Ended));
  }

  lemma NewTaskKeepsControl(c: StreamCrypto, s: State, l: Label)
    requires ControlInv(s) && Enabled(s, l) && (l.Arrive? || l.Fire?)
    ensures ControlInv(Apply(c, s, l))
  {
    match l
    case Arrive(id, kind) => FreeMove(s, id, Task(kind, Waiting, [], None, false));
    case Fire(id, timer) =>
      var r := s.(sh := s.sh.(timers := s.sh.timers - {timer}));
      ControlFrame(s, r);
      FreeMove(r, id, Task(CloseTimer, Waiting, [], None, false));
  }

  lemma FreeStepKeepsControl(c: StreamCrypto, s: State, l: Label)
    requires ControlInv(s) && Enabled(s, l)
    requires !LockedLabel(l) && !BriefLabel(l) && !PumpLabel(l) && !l.Arrive? && !l.Fire?
    ensures ControlInv(Apply(c, s, l))
  {
    hide LockInv, PumpInv, TimerInv;
    assert KindAllows(s.tasks[l.id].kind, s.tasks[l.id].pc);
    match l
    case KeyframeWaitOver(id) => FreeMove(s, id, s.tasks[id].(pc := WaitSnapshot));
    case SnapshotTaken(id) => GiveBurstKeeps(s, id, WaitPublish);
    case BurstDrained(id, ok) => FreeMove(s, id, s.tasks[id].(pc := if ok then WaitPublish else WaitCleanup));
    case Leave(id) => FreeMove(s, id, s.tasks[id].(pc := WaitCleanup));
    case Closed(id) => FreeMove(s, id, s.tasks[id].(pc := Done));
    case TransportCloses(id) => TransportClosesKeeps(s, id);
  }

  lemma StepKeepsControl(c: StreamCrypto, s: State, l: Label)
    requires ControlInv(s) && Enabled(s, l)
    ensures ControlInv(Apply(c, s, l))
  {
    if LockedLabel(l) {
      LockedStepKeepsControl(c, s, l);
    } else if BriefLabel(l) {
      BriefStepKeepsControl(c, s, l);
    } else if PumpLabel(l) {
      PumpStepKeepsControl(c, s, l);
    } else if l.Arrive? || l.Fire? {
      NewTaskKeepsControl(c, s, l);
    } else {
      FreeStepKeepsControl(c, s, l);
    }
  }
}
