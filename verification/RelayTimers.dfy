/** The close timer, the LAN client and the keyframe event over all runs of the relay. */
module RelayTimers {
  import opened ByteStrings
  import opened RelayBuffer
  import opened RelayShared
  import opened StreamSpec
  import opened Relay
  import opened RelayInvariants
  import opened RelayRuns
  import opened RelayStream
  import RelayTheorems

  // The armed timers.

  /** A close-timer task gets the lock while a newer timer is armed, and forgets that one's handle. */
  predicate Orphans(s: State, l: Label)
  {
    && l.Enter? && l.id in s.tasks && s.tasks[l.id].kind.CloseTimer?
    && s.sh.closeHandle.Some? && s.sh.closeHandle.value in s.sh.timers
  }

  predicate SameTimers(s: State, s': State)
  {
    s'.sh.timers == s.sh.timers && s'.sh.closeHandle == s.sh.closeHandle
  }

  lemma EnterTimers(s: State, id: Id, ok: bool, timer: Id)
    requires Remembered(s.sh) && At(s, id, Waiting) && FreshTimer(s.sh, timer)
    ensures Remembered(EnterLocked(s, id, ok, timer).sh) <==> !Orphans(s, Enter(id, ok, timer))
  {
    hide Snapshot, BeginTeardown, ResetUpstream, EndTeardown;
    TeardownRemembers(s, id);
    if s.tasks[id].kind.CloseTimer? {
      TeardownKeepsTimers(s.(sh := s.sh.(closeHandle := None)), id);
    }
  }

  /** With no remembered timer, a teardown leaves the armed ones alone. */
  lemma TeardownKeepsTimers(s: State, id: Id)
    requires id in s.tasks && s.sh.closeHandle.None?
    ensures SameTimers(s, BeginTeardown(s, id))
  {
  }

  lemma PumpReadTimers(c: StreamCrypto, s: State, p: Id, raw: Bytes)
    requires p in s.pumps
    ensures SameTimers(s, PumpStep(c, s, p, raw))
  {
    hide Increment, Absorbed, KeyframeComplete;
  }

  lemma TeardownRemembers(s: State, id: Id)
    requires Remembered(s.sh) && id in s.tasks
    ensures Remembered(BeginTeardown(s, id).sh)
    ensures Remembered(ResetUpstream(s, id).sh)
    ensures Remembered(EndTeardown(s, id).sh)
  {
  }

  lemma CommitRemembers(s: State, id: Id, session: Id, timer: Id)
    requires Remembered(s.sh) && id in s.tasks
    ensures Remembered(CommitSpinUp(s, id, session, timer).sh)
  {
  }

  lemma TeardownTimers(c: StreamCrypto, s: State, l: Label)
    requires Remembered(s.sh) && Enabled(s, l) && TeardownLabel(l)
    ensures Remembered(Apply(c, s, l).sh)
  {
    hide Remembered, BeginTeardown, ResetUpstream, EndTeardown, CommitSpinUp;
    TeardownRemembers(s, l.id);
    if l.LanClosed? {
      TeardownRemembers(s.(clients := s.clients - {s.tasks[l.id].pc.lan}), l.id);
    } else if l.LanStarted? {
      CommitRemembers(s, l.id, l.session, l.timer);
    }
  }

  lemma CleanupTimers(c: StreamCrypto, s: State, id: Id, timer: Id)
    requires Remembered(s.sh) && Enabled(s, Cleanup(id, timer))
    ensures Remembered(Apply(c, s, Cleanup(id, timer)).sh)
  {
  }

  lemma OtherTimers(c: StreamCrypto, s: State, l: Label)
    requires Enabled(s, l) && !TeardownLabel(l) && !l.Enter? && !l.PumpReads? && !l.Cleanup? && !l.Fire?
    ensures SameTimers(s, Apply(c, s, l))
  {
    hide Snapshot;
  }

  /** A step leaves an armed timer that nobody can cancel exactly when a close-timer task overtakes a newer timer. */
  lemma StepRemembers(c: StreamCrypto, s: State, l: Label)
    requires Remembered(s.sh) && Enabled(s, l)
    ensures Remembered(Apply(c, s, l).sh) <==> !Orphans(s, l)
  {
    if l.Enter? {
      EnterTimers(s, l.id, l.ok, l.timer);
    } else if l.PumpReads? {
      PumpReadTimers(c, s, l.p, l.raw);
    } else if TeardownLabel(l) {
      TeardownTimers(c, s, l);
    } else if l.Cleanup? {
      CleanupTimers(c, s, l.id, l.timer);
    } else if !l.Fire? {
      OtherTimers(c, s, l);
    }
  }

  /** A prewarm call has renewed the timer after the old one had fired, and the fired one's task is still waiting. */
  ghost predicate Renewed(s: State)
  {
    && At(s, 1, Waiting) && s.tasks[1].kind.CloseTimer? && s.lock.None? && s.sh.writer.None? && PumpAlive(s)
    && s.sh.timers == {1} && s.sh.closeHandle == Some(1)
  }

  lemma TimerRenewed(c: StreamCrypto, s: State)
    requires Connecting(s, 60.0)
    ensures Enabled(s, LanStarted(0, true, 0, 0))
    ensures var r := Apply(c, s, LanStarted(0, true, 0, 0));
            Enabled(r, Fire(1, 0)) && Enabled(Apply(c, r, Fire(1, 0)), Arrive(2, Prewarm(60.0)))
    ensures var r := Apply(c, Apply(c, Apply(c, s, LanStarted(0, true, 0, 0)), Fire(1, 0)), Arrive(2, Prewarm(60.0)));
            Enabled(r, Enter(2, true, 1)) && Renewed(Apply(c, r, Enter(2, true, 1)))
  {
  }

  lemma RenewedIsOvertaken(c: StreamCrypto, s: State)
    requires Renewed(s)
    ensures Remembered(s.sh) && Enabled(s, Enter(1, true, 2)) && Orphans(s, Enter(1, true, 2))
    ensures var s' := Apply(c, s, Enter(1, true, 2)); s'.sh.timers == {1} && s'.sh.closeHandle.None?
  {
  }

  /** It happens: a fired timer's task gets the lock after a prewarm call, whose timer can no longer be cancelled. */
  lemma OvertakingRun(c: StreamCrypto) returns (labels: seq<Label>)
    ensures IsRun(c, labels) && Remembered(After(c, labels).sh)
    ensures Enabled(After(c, labels), Enter(1, true, 2)) && Orphans(After(c, labels), Enter(1, true, 2))
    ensures var s' := Apply(c, After(c, labels), Enter(1, true, 2)); s'.sh.timers == {1} && s'.sh.closeHandle.None?
  {
    hide Connecting, Renewed, Remembered, Orphans;
    labels := Connect(c, 60.0);
    TimerRenewed(c, After(c, labels));
    RunSnoc(c, labels, LanStarted(0, true, 0, 0));
    labels := labels + [LanStarted(0, true, 0, 0)];
    RunSnoc(c, labels, Fire(1, 0));
    labels := labels + [Fire(1, 0)];
    RunSnoc(c, labels, Arrive(2, Prewarm(60.0)));
    labels := labels + [Arrive(2, Prewarm(60.0))];
    RunSnoc(c, labels, Enter(2, true, 1));
    labels := labels + [Enter(2, true, 1)];
    RenewedIsOvertaken(c, After(c, labels));
  }

  predicate NoOvertaking(c: StreamCrypto, labels: seq<Label>)
    requires IsRun(c, labels)
    decreases |labels|
  {
    labels == [] ||
    (var before := labels[..|labels| - 1];
     NoOvertaking(c, before) && !Orphans(After(c, before), labels[|labels| - 1]))
  }

  lemma {:induction false} RunRemembers(c: StreamCrypto, labels: seq<Label>)
    requires IsRun(c, labels) && NoOvertaking(c, labels)
    ensures Remembered(After(c, labels).sh)
    decreases |labels|
  {
    if labels != [] {
      var before := labels[..|labels| - 1];
      RunRemembers(c, before);
      StepRemembers(c, After(c, before), labels[|labels| - 1]);
    }
  }

  /** Without overtaking at most one timer is armed, and a viewer that gets a session leaves none armed. */
  lemma AttachDisarms(c: StreamCrypto, labels: seq<Label>, l: Label, t: Id, u: Id)
    requires IsRun(c, labels) && NoOvertaking(c, labels) && Enabled(After(c, labels), l)
    ensures t in After(c, labels).sh.timers && u in After(c, labels).sh.timers ==> t == u
    ensures ViewerGetsSession(After(c, labels), l) ==> Apply(c, After(c, labels), l).sh.timers == {}
  {
    RunRemembers(c, labels);
    AttachStepDisarms(c, After(c, labels), l);
  }

  predicate ViewerGetsSession(s: State, l: Label)
    requires Enabled(s, l)
  {
    || (l.Enter? && s.tasks[l.id].kind.Viewer? && PumpAlive(s))
    || (l.LanStarted? && l.ok && s.tasks[l.id].kind.Viewer?)
  }

  lemma AttachStepDisarms(c: StreamCrypto, s: State, l: Label)
    requires Remembered(s.sh) && Enabled(s, l)
    ensures ViewerGetsSession(s, l) ==> Apply(c, s, l).sh.timers == {}
  {
    hide Snapshot;
  }

  // The LAN client and the keyframe event.

  /** The live pump's LAN client is the current one, and a complete keyframe has woken everybody. */
  ghost predicate SessionInv(s: State)
  {
    && (PumpAlive(s) ==> s.sh.lan == s.sh.pumpTask)
    && (s.sh.keyframeSeen || !KeyframeComplete(s.sh.buffer))
  }

  ghost predicate SessionKept(s: State, s': State)
  {
    && (PumpAlive(s') ==>
          || s'.sh.lan == s'.sh.pumpTask
          || (PumpAlive(s) && s'.sh.lan == s.sh.lan && s'.sh.pumpTask == s.sh.pumpTask))
    && (|| (s'.sh.buffer == s.sh.buffer && s'.sh.keyframeSeen == s.sh.keyframeSeen)
        || s'.sh.buffer == []
        || s'.sh.keyframeSeen || !KeyframeComplete(s'.sh.buffer))
  }

  lemma EmptyIsIncomplete()
    ensures !KeyframeComplete([])
  {
  }

  lemma TeardownKeepsSession(s: State, id: Id)
    requires id in s.tasks
    ensures SessionKept(s, BeginTeardown(s, id))
    ensures !PumpAlive(s) ==> SessionKept(s, ResetUpstream(s, id))
    ensures SessionKept(s, EndTeardown(s, id))
  {
    hide KeyframeComplete;
  }

  lemma EnterKeepsSession(s: State, id: Id, ok: bool, timer: Id)
    requires At(s, id, Waiting)
    ensures SessionKept(s, EnterLocked(s, id, ok, timer))
  {
    hide KeyframeComplete, Snapshot, BeginTeardown, ResetUpstream, EndTeardown;
    TeardownKeepsSession(s, id);
    TeardownKeepsSession(s.(sh := s.sh.(closeHandle := None)), id);
  }

  lemma PumpReadKeepsSession(c: StreamCrypto, s: State, p: Id, raw: Bytes)
    requires p in s.pumps && s.pumps[p].phase == Reading
    ensures SessionKept(s, PumpStep(c, s, p, raw))
  {
    hide KeyframeComplete, Increment, Absorbed;
  }

  lemma CommitKeepsSession(s: State, id: Id, session: Id, timer: Id)
    requires id in s.tasks
    ensures SessionKept(s, CommitSpinUp(s, id, session, timer))
  {
    hide KeyframeComplete;
  }

  lemma TeardownLabelKeepsSession(c: StreamCrypto, s: State, l: Label)
    requires ControlInv(s) && Enabled(s, l) && TeardownLabel(l)
    ensures SessionKept(s, Apply(c, s, l))
  {
    hide KeyframeComplete, ControlInv;
    OwnerFacts(s, l.id);
    TeardownKeepsSession(s, l.id);
    if l.LanStarted? && l.ok {
      CommitKeepsSession(s, l.id, l.session, l.timer);
    } else if !l.KeyFetched? || !l.ok {
      hide SessionKept;
    }
  }

  lemma OtherKeepsSession(c: StreamCrypto, s: State, l: Label)
    requires Enabled(s, l) && !TeardownLabel(l) && !l.Enter? && !l.PumpReads?
    ensures SessionKept(s, Apply(c, s, l))
  {
    hide KeyframeComplete, Snapshot, PumpStep, EnterLocked;
  }

  lemma {:induction false} RunKeepsSession(c: StreamCrypto, labels: seq<Label>)
    requires IsRun(c, labels)
    ensures SessionInv(After(c, labels))
    decreases |labels|
  {
    EmptyIsIncomplete();
    if labels != [] {
      var before, l := labels[..|labels| - 1], labels[|labels| - 1];
      RunKeepsSession(c, before);
      RelayTheorems.RunKeepsInvariants(c, before);
      StepKeepsSession(c, After(c, before), l);
    }
  }

  lemma StepKeepsSession(c: StreamCrypto, s: State, l: Label)
    requires ControlInv(s) && SessionInv(s) && Enabled(s, l)
    ensures SessionInv(Apply(c, s, l))
  {
    hide KeyframeComplete, ControlInv;
    EmptyIsIncomplete();
    if l.Enter? {
      EnterKeepsSession(s, l.id, l.ok, l.timer);
    } else if l.PumpReads? {
      PumpReadKeepsSession(c, s, l.p, l.raw);
    } else if TeardownLabel(l) {
      TeardownLabelKeepsSession(c, s, l);
    } else {
      OtherKeepsSession(c, s, l);
    }
  }

  /**
   In every reachable state the live pump reads from the current LAN client, so it never finds none at its start, and
   the keyframe event is set whenever the session's untrimmed log ends in a complete keyframe.
   */
  lemma CompleteKeyframeWakesViewers(c: StreamCrypto, labels: seq<Label>)
    requires IsRun(c, labels)
    ensures var s := After(c, labels);
            && (PumpAlive(s) ==> s.sh.lan == s.sh.pumpTask)
            && s.base <= |s.log| && (KeyframeComplete(Session(s)) ==> s.sh.keyframeSeen)
  {
    RunKeepsSession(c, labels);
    RelayTheorems.RunKeepsInvariants(c, labels);
    SnapshotAgrees(After(c, labels).sh.buffer, Session(After(c, labels)));
  }
}
