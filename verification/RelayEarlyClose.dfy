/**
 A close timer that ends a session under a viewer who has entered and is not published yet: when it happens in runs
 that overtake no timer, and runs in which it does.
 */
module RelayEarlyClose {
  import opened ByteStrings
  import opened RelayShared
  import opened StreamSpec
  import opened Relay
  import opened RelayRuns
  import opened RelayTimers
  import RelayBuffer
  import RelayInvariants
  import RelayStream
  import RelayTheorems

  /** A close-timer task that has fired and waits for the lock. */
  predicate TimerWaits(s: State, t: Id)
  {
    At(s, t, Waiting) && s.tasks[t].kind.CloseTimer?
  }

  /** A step in which a close-timer task gets the lock and cancels the live pump. */
  ghost predicate TimerCancels(c: StreamCrypto, s: State, l: Label)
    requires Enabled(s, l)
  {
    var s' := Apply(c, s, l);
    && PumpAlive(s) && !PumpAlive(s')
    && (exists t :: TimerWaits(s, t) && t in s'.tasks && s'.tasks[t].pc.AwaitingPump?)
  }

  /** The viewer has got its session, and is not published yet. */
  predicate Unserved(t: Task)
  {
    t.kind.Viewer? && (t.pc == WaitKeyframe || t.pc == WaitSnapshot || t.pc == Draining || t.pc == WaitPublish)
  }

  /** The steps that arm a close timer. */
  predicate Arms(s: State, l: Label)
    requires Enabled(s, l)
  {
    match l
    case Enter(id, _, _) => PumpAlive(s) && s.tasks[id].kind.Prewarm? && s.tasks[id].kind.hold > 0.0
    case LanStarted(id, ok, _, _) => ok && s.tasks[id].kind.Prewarm? && s.tasks[id].kind.hold > 0.0
    case Cleanup(id, _) => s.sh.writer == Some(id)
    case _ => false
  }

  /** The steps from the ``i``-th on arm no timer. */
  ghost predicate ArmsNothing(c: StreamCrypto, labels: seq<Label>, i: nat)
    requires IsRun(c, labels) && i <= |labels|
    decreases |labels|
  {
    i == |labels| ||
    (var before := labels[..|labels| - 1];
     ArmsNothing(c, before, i) && !Arms(After(c, before), labels[|labels| - 1]))
  }

  lemma TeardownArmsNothing(s: State, id: Id)
    requires id in s.tasks
    ensures BeginTeardown(s, id).sh.timers <= s.sh.timers
    ensures ResetUpstream(s, id).sh.timers == s.sh.timers
    ensures EndTeardown(s, id).sh.timers == s.sh.timers
  {
  }

  lemma EnterArms(c: StreamCrypto, s: State, id: Id, ok: bool, timer: Id)
    requires Enabled(s, Enter(id, ok, timer))
    ensures var s' := EnterLocked(s, id, ok, timer);
            if Arms(s, Enter(id, ok, timer)) then timer in s'.sh.timers && timer !in s.sh.timers
            else s'.sh.timers <= s.sh.timers
  {
    hide RelayBuffer.Snapshot, BeginTeardown, ResetUpstream, EndTeardown;
    if s.tasks[id].kind.CloseTimer? {
      TeardownArmsNothing(s.(sh := s.sh.(closeHandle := None)), id);
    } else {
      TeardownArmsNothing(s, id);
    }
  }

  /** The steps listed arm a timer, and no others do. */
  lemma ArmsExactly(c: StreamCrypto, s: State, l: Label)
    requires Enabled(s, l)
    ensures Arms(s, l) <==> !(Apply(c, s, l).sh.timers <= s.sh.timers)
  {
    hide RelayBuffer.Snapshot, BeginTeardown, ResetUpstream, EndTeardown, PumpStep, EnterLocked;
    if l.PumpReads? {
      PumpReadTimers(c, s, l.p, l.raw);
    } else if l.Enter? {
      EnterArms(c, s, l.id, l.ok, l.timer);
    } else if RelayStream.TeardownLabel(l) {
      TeardownArmsNothing(s, l.id);
      if l.LanClosed? {
        TeardownArmsNothing(s.(clients := s.clients - {s.tasks[l.id].pc.lan}), l.id);
      }
    }
    if Arms(s, l) {
      assert l.timer in Apply(c, s, l).sh.timers;
    }
  }

  /** The task leaves its place in the queue for the lock. */
  predicate Takes(l: Label, t: Id)
  {
    (l.Enter? || l.Abandon?) && l.id == t
  }

  ghost predicate MovesOnly(s: State, s': State, id: Id)
  {
    id in s'.tasks && s'.tasks == s.tasks[id := s'.tasks[id]]
  }

  lemma TeardownMovesOnly(s: State, id: Id)
    requires id in s.tasks
    ensures MovesOnly(s, BeginTeardown(s, id), id) && !TimerWaits(BeginTeardown(s, id), id)
    ensures MovesOnly(s, ResetUpstream(s, id), id) && !TimerWaits(ResetUpstream(s, id), id)
    ensures MovesOnly(s, EndTeardown(s, id), id) && !TimerWaits(EndTeardown(s, id), id)
  {
  }

  lemma EnterMovesOnly(s: State, id: Id, ok: bool, timer: Id)
    requires At(s, id, Waiting)
    ensures MovesOnly(s, EnterLocked(s, id, ok, timer), id) && !TimerWaits(EnterLocked(s, id, ok, timer), id)
  {
    hide RelayBuffer.Snapshot, BeginTeardown, ResetUpstream, EndTeardown;
    TeardownMovesOnly(s, id);
    TeardownMovesOnly(s.(sh := s.sh.(closeHandle := None)), id);
  }

  lemma TeardownStepMovesOnly(c: StreamCrypto, s: State, l: Label)
    requires Enabled(s, l) && RelayStream.TeardownLabel(l)
    ensures MovesOnly(s, Apply(c, s, l), l.id) && !TimerWaits(s, l.id) && !TimerWaits(Apply(c, s, l), l.id)
  {
    hide BeginTeardown, ResetUpstream, EndTeardown;
    TeardownMovesOnly(s, l.id);
    if l.LanClosed? {
      TeardownMovesOnly(s.(clients := s.clients - {s.tasks[l.id].pc.lan}), l.id);
    }
  }

  /** Only a waiting task's own entry or cancellation ends its wait, and only a fired timer begins one. */
  lemma StepKeepsWaiting(c: StreamCrypto, s: State, l: Label, t: Id)
    requires Enabled(s, l) && !l.Fire?
    ensures TimerWaits(Apply(c, s, l), t) <==> TimerWaits(s, t) && !Takes(l, t)
  {
    hide Enabled, Apply;
    if RelayInvariants.PumpLabel(l) {
      PumpKeepsTasks(c, s, l, t);
    } else if l.Enter? || RelayStream.TeardownLabel(l) {
      LockedMovesOnly(c, s, l);
    } else {
      OtherMovesOnly(c, s, l);
    }
  }

  lemma LockedMovesOnly(c: StreamCrypto, s: State, l: Label)
    requires Enabled(s, l) && (l.Enter? || RelayStream.TeardownLabel(l))
    ensures MovesOnly(s, Apply(c, s, l), l.id) && !TimerWaits(Apply(c, s, l), l.id)
    ensures TimerWaits(s, l.id) ==> l.Enter?
  {
    hide MovesOnly, EnterLocked, BeginTeardown, ResetUpstream, EndTeardown, CommitSpinUp;
    if l.Enter? {
      EnterMovesOnly(s, l.id, l.ok, l.timer);
    } else {
      TeardownStepMovesOnly(c, s, l);
    }
  }

  lemma OtherMovesOnly(c: StreamCrypto, s: State, l: Label)
    requires Enabled(s, l) && !l.Enter? && !RelayStream.TeardownLabel(l) && !RelayInvariants.PumpLabel(l)
    ensures MovesOnly(s, Apply(c, s, l), l.id)
    ensures !l.Fire? ==> (TimerWaits(Apply(c, s, l), l.id) <==> TimerWaits(s, l.id) && !l.Abandon?)
    ensures Apply(c, s, l).tasks[l.id].pc.AwaitingPump? ==> l.id in s.tasks && s.tasks[l.id].pc.AwaitingPump?
  {
    hide RelayBuffer.Snapshot;
  }

  lemma PumpKeepsTasks(c: StreamCrypto, s: State, l: Label, t: Id)
    requires Enabled(s, l) && RelayInvariants.PumpLabel(l)
    ensures t in Apply(c, s, l).tasks <==> t in s.tasks
    ensures t in s.tasks ==> Apply(c, s, l).tasks[t].pc == s.tasks[t].pc
    ensures t in s.tasks ==> Apply(c, s, l).tasks[t].kind == s.tasks[t].kind
  {
    hide Increment, RelayBuffer.KeyframeComplete, RelayBuffer.Absorbed;
    if l.PumpReads? {
      RelayInvariants.ForwardMovesNobody(s, Increment(c, s.pumps[l.p].wire, l.raw));
    }
  }

  lemma OthersStay(c: StreamCrypto, s: State, l: Label, t: Id)
    requires Enabled(s, l) && TimerWaits(s, t) && !(l.Enter? && l.id == t)
    ensures t in Apply(c, s, l).tasks && !Apply(c, s, l).tasks[t].pc.AwaitingPump?
  {
    hide Enabled, Apply;
    if RelayInvariants.PumpLabel(l) {
      PumpKeepsTasks(c, s, l, t);
    } else if l.Enter? || RelayStream.TeardownLabel(l) {
      LockedMovesOnly(c, s, l);
    } else {
      OtherMovesOnly(c, s, l);
    }
  }

  lemma TimerEnters(c: StreamCrypto, s: State, id: Id, ok: bool, timer: Id)
    requires Enabled(s, Enter(id, ok, timer)) && TimerWaits(s, id)
    ensures var s' := EnterLocked(s, id, ok, timer);
            && id in s'.tasks
            && (PumpAlive(s) && s.sh.writer.None? <==> PumpAlive(s) && !PumpAlive(s') && s'.tasks[id].pc.AwaitingPump?)
  {
  }

  lemma CancelsExactly(c: StreamCrypto, s: State, l: Label)
    requires Enabled(s, l)
    ensures TimerCancels(c, s, l) <==> l.Enter? && TimerWaits(s, l.id) && PumpAlive(s) && s.sh.writer.None?
  {
    hide TimerWaits, EnterLocked, PumpStep, BeginTeardown, ResetUpstream, EndTeardown, CommitSpinUp, GiveBurst;
    forall t | TimerWaits(s, t) && !(l.Enter? && l.id == t)
      ensures t in Apply(c, s, l).tasks && !Apply(c, s, l).tasks[t].pc.AwaitingPump?
    {
      OthersStay(c, s, l, t);
    }
    if l.Enter? && TimerWaits(s, l.id) {
      TimerEnters(c, s, l.id, l.ok, l.timer);
    }
  }

  /** With no timer armed, the same close-timer tasks go on waiting. */
  lemma {:induction false} StillWaiting(c: StreamCrypto, labels: seq<Label>, i: nat, t: Id)
    requires IsRun(c, labels) && i <= |labels| && IsRun(c, labels[..i]) && ArmsNothing(c, labels, i)
    requires After(c, labels[..i]).sh.timers == {}
    ensures After(c, labels).sh.timers == {}
    ensures TimerWaits(After(c, labels), t) <==>
              TimerWaits(After(c, labels[..i]), t) && forall j | i <= j < |labels| :: !Takes(labels[j], t)
    decreases |labels|
  {
    if i == |labels| {
      assert labels[..i] == labels;
    } else {
      hide Arms, Takes, TimerWaits, Apply, Enabled;
      var n := |labels| - 1;
      var before, l := labels[..n], labels[n];
      assert before[..i] == labels[..i];
      StillWaiting(c, before, i, t);
      QuietTimers(c, After(c, before), l, t);
      assert forall j | i <= j < n :: before[j] == labels[j];
    }
  }

  lemma QuietTimers(c: StreamCrypto, s: State, l: Label, t: Id)
    requires Enabled(s, l) && s.sh.timers == {} && !Arms(s, l)
    ensures Apply(c, s, l).sh.timers == {}
    ensures TimerWaits(Apply(c, s, l), t) <==> TimerWaits(s, t) && !Takes(l, t)
  {
    hide Arms, Takes, TimerWaits, Apply;
    assert !l.Fire?;
    ArmsExactly(c, s, l);
    StepKeepsWaiting(c, s, l, t);
  }

  /**
   In a run that has overtaken no timer when a viewer gets its session, at step ``i``, and that arms none afterwards: a
   close timer cancels the live pump exactly when its task gets the lock, with nobody published, and that task was
   already waiting when the viewer got its session.
   */
  lemma EarlyCloseExactly(c: StreamCrypto, labels: seq<Label>, i: nat, l: Label)
    requires IsRun(c, labels) && i < |labels| && IsRun(c, labels[..i]) && IsRun(c, labels[..i + 1])
    requires Enabled(After(c, labels[..i]), labels[i]) && ViewerGetsSession(After(c, labels[..i]), labels[i])
    requires NoOvertaking(c, labels[..i]) && ArmsNothing(c, labels, i + 1) && Enabled(After(c, labels), l)
    ensures var s := After(c, labels);
            TimerCancels(c, s, l) <==>
              && l.Enter? && TimerWaits(After(c, labels[..i + 1]), l.id)
              && PumpAlive(s) && s.sh.writer.None?
  {
    hide TimerCancels, TimerWaits, Enabled, Apply, ViewerGetsSession, Takes;
    var s := After(c, labels);
    AttachDisarms(c, labels[..i], labels[i], 0, 0);
    AfterSnoc(c, labels, i);
    CancelsExactly(c, s, l);
    if l.Enter? {
      StillWaiting(c, labels, i + 1, l.id);
      EntersWaiting(c, labels, i + 1, l);
    }
  }

  lemma AfterSnoc(c: StreamCrypto, labels: seq<Label>, i: nat)
    requires i < |labels| && IsRun(c, labels[..i + 1])
    ensures IsRun(c, labels[..i]) && Enabled(After(c, labels[..i]), labels[i])
    ensures After(c, labels[..i + 1]) == Apply(c, After(c, labels[..i]), labels[i])
  {
    assert labels[..i + 1][..i] == labels[..i];
  }

  /** A close-timer task that enters now, and waited before, has been waiting all along. */
  lemma EntersWaiting(c: StreamCrypto, labels: seq<Label>, i: nat, l: Label)
    requires IsRun(c, labels) && i <= |labels| && IsRun(c, labels[..i]) && l.Enter? && Enabled(After(c, labels), l)
    ensures TimerWaits(After(c, labels[..i]), l.id) ==> TimerWaits(After(c, labels), l.id)
  {
    hide Apply;
    RelayTheorems.RunEvolves(c, labels, i);
  }

  // Runs in which it happens.

  lemma {:induction false} NoTimersNoOvertaking(c: StreamCrypto, labels: seq<Label>)
    requires IsRun(c, labels) && forall t | t in After(c, labels).tasks :: !After(c, labels).tasks[t].kind.CloseTimer?
    ensures NoOvertaking(c, labels)
    decreases |labels|
  {
    if labels != [] {
      hide Apply, Enabled;
      var n := |labels| - 1;
      RelayTheorems.RunEvolves(c, labels, n);
      NoTimersNoOvertaking(c, labels[..n]);
    }
  }

  lemma OvertakesNot(c: StreamCrypto, labels: seq<Label>, l: Label)
    requires IsRun(c, labels) && NoOvertaking(c, labels)
    requires Enabled(After(c, labels), l) && !Orphans(After(c, labels), l)
    ensures IsRun(c, labels + [l]) && After(c, labels + [l]) == Apply(c, After(c, labels), l)
    ensures NoOvertaking(c, labels + [l])
  {
    hide Apply, Enabled, Orphans;
    RunSnoc(c, labels, l);
    assert (labels + [l])[..|labels|] == labels;
  }

  /** The timer task ``t`` is about to end the session of viewer ``v``, who has got it and is not published. */
  ghost predicate AboutToClose(s: State, v: Id, t: Id)
  {
    && s.lock.None? && s.sh.writer.None? && PumpAlive(s) && TimerWaits(s, t)
    && v in s.tasks && Unserved(s.tasks[v]) && s.sh.timers == {} && FreshTimer(s.sh, 2)
  }

  /** The timer task ``t`` can get the lock, and then cancels the pump of viewer ``v``. */
  ghost predicate ClosesUnder(c: StreamCrypto, s: State, v: Id, t: Id)
  {
    var l := Enter(t, true, 2);
    && Enabled(s, l) && TimerCancels(c, s, l) && !Orphans(s, l)
    && v in s.tasks && Unserved(s.tasks[v]) && v in Apply(c, s, l).tasks && Unserved(Apply(c, s, l).tasks[v])
  }

  lemma ClosesEarly(c: StreamCrypto, s: State, v: Id, t: Id)
    requires AboutToClose(s, v, t)
    ensures ClosesUnder(c, s, v, t)
  {
    CancelsExactly(c, s, Enter(t, true, 2));
    EnterMovesOnly(s, t, true, 2);
  }

  lemma WarmHasNoTimerTask(s: State, wire: Bytes)
    requires Warm(s, wire)
    ensures forall t | t in s.tasks :: !s.tasks[t].kind.CloseTimer?
  {
  }

  lemma FiredFirst(c: StreamCrypto, s: State)
    requires Warm(s, []) && s.sh.buffer == []
    ensures Enabled(s, Fire(1, 0)) && Enabled(Apply(c, s, Fire(1, 0)), Arrive(2, Viewer))
    ensures var r := Apply(c, Apply(c, s, Fire(1, 0)), Arrive(2, Viewer));
            && Enabled(r, Enter(2, true, 1)) && !Orphans(r, Enter(2, true, 1))
            && ViewerGetsSession(r, Enter(2, true, 1))
            && AboutToClose(Apply(c, r, Enter(2, true, 1)), 2, 1)
  {
    var r := Apply(c, Apply(c, s, Fire(1, 0)), Arrive(2, Viewer));
    assert PumpAlive(r);
  }

  /** A timer fires, a viewer gets the session before the timer's task gets the lock, and the task then ends it. */
  lemma EarlyCloseRun(c: StreamCrypto) returns (labels: seq<Label>)
    ensures IsRun(c, labels) && NoOvertaking(c, labels) && ClosesUnder(c, After(c, labels), 2, 1)
  {
    hide Warm, AboutToClose, ClosesUnder, Orphans, NoOvertaking, ViewerGetsSession;
    labels := WarmUp(c);
    WarmHasNoTimerTask(After(c, labels), []);
    NoTimersNoOvertaking(c, labels);
    FiredFirst(c, After(c, labels));
    NeverOrphans(After(c, labels));
    OvertakesNot(c, labels, Fire(1, 0));
    labels := labels + [Fire(1, 0)];
    NeverOrphans(After(c, labels));
    OvertakesNot(c, labels, Arrive(2, Viewer));
    labels := labels + [Arrive(2, Viewer)];
    OvertakesNot(c, labels, Enter(2, true, 1));
    labels := labels + [Enter(2, true, 1)];
    ClosesEarly(c, After(c, labels), 2, 1);
  }

  lemma NeverOrphans(s: State)
    ensures forall l: Label | !l.Enter? :: !Orphans(s, l)
  {
  }

  lemma PrewarmWhileWaiting(c: StreamCrypto, s: State)
    requires Awaits(s, [], WaitKeyframe)
    ensures Enabled(s, Arrive(2, Prewarm(60.0))) && Enabled(Apply(c, s, Arrive(2, Prewarm(60.0))), Enter(2, true, 1))
    ensures var r := Apply(c, s, Arrive(2, Prewarm(60.0)));
            && !Orphans(r, Enter(2, true, 1)) && Enabled(Apply(c, r, Enter(2, true, 1)), Fire(3, 1))
            && AboutToClose(Apply(c, Apply(c, r, Enter(2, true, 1)), Fire(3, 1)), 1, 3)
  {
    assert PumpAlive(Apply(c, s, Arrive(2, Prewarm(60.0))));
  }

  lemma AwaitsHasNoTimerTask(s: State, wire: Bytes, pc: Pc)
    requires Awaits(s, wire, pc)
    ensures forall t | t in s.tasks :: !s.tasks[t].kind.CloseTimer?
  {
  }

  /** Or a prewarm call arms a timer after the viewer got its session, and that one fires while the viewer waits. */
  lemma PrewarmClosesRun(c: StreamCrypto) returns (labels: seq<Label>)
    ensures IsRun(c, labels) && NoOvertaking(c, labels) && ClosesUnder(c, After(c, labels), 1, 3)
  {
    hide Awaits, AboutToClose, ClosesUnder, Orphans, NoOvertaking;
    labels := WaitReads(c, []);
    AwaitsHasNoTimerTask(After(c, labels), [], WaitKeyframe);
    NoTimersNoOvertaking(c, labels);
    PrewarmWhileWaiting(c, After(c, labels));
    NeverOrphans(After(c, labels));
    OvertakesNot(c, labels, Arrive(2, Prewarm(60.0)));
    labels := labels + [Arrive(2, Prewarm(60.0))];
    OvertakesNot(c, labels, Enter(2, true, 1));
    labels := labels + [Enter(2, true, 1)];
    NeverOrphans(After(c, labels));
    OvertakesNot(c, labels, Fire(3, 1));
    labels := labels + [Fire(3, 1)];
    ClosesEarly(c, After(c, labels), 1, 3);
  }
}
