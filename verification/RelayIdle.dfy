/**
 Sessions that nothing will close.  A session is meant to end a while after its last viewer has left; which steps break
 that, and runs in which they do.
 */
module RelayIdle {
  import opened ByteStrings
  import opened RelayShared
  import opened StreamSpec
  import opened Relay
  import opened RelayInvariants
  import opened RelayRuns
  import RelayTheorems
  import RelayBuffer
  import RelayStream
  import RelayTimers

  /** A viewer between its entry and its cleanup, or a close-timer task waiting for the lock. */
  predicate Minds(t: Task)
  {
    || (t.kind.CloseTimer? && t.pc == Waiting)
    || (t.kind.Viewer? && (t.pc == WaitKeyframe || t.pc == WaitSnapshot || t.pc == Draining || t.pc == WaitPublish
                           || t.pc == Attached || t.pc == WaitCleanup))
  }

  ghost predicate NobodyMinds(s: State)
  {
    forall t | t in s.tasks :: !Minds(s.tasks[t])
  }

  ghost predicate NobodyElseMinds(s: State, id: Id)
  {
    forall t | t in s.tasks && t != id :: !Minds(s.tasks[t])
  }

  /** The pump runs for nobody: no viewer, no armed or fired close timer, and nobody inside a locked section. */
  ghost predicate Unattended(s: State)
  {
    PumpAlive(s) && s.lock.None? && s.sh.writer.None? && s.sh.timers == {} && NobodyMinds(s)
  }

  /** A prewarm call that does not hold the session. */
  predicate HoldsNothing(kind: Kind)
  {
    kind.Prewarm? && kind.hold <= 0.0
  }

  /**
   The steps after which nothing will close the session: the last viewer or close timer is cancelled; the last viewer
   cleans up without being the published one; a prewarm call that holds nothing cancels the only timer, or starts a
   session.
   */
  ghost predicate Neglects(s: State, l: Label)
    requires Enabled(s, l)
  {
    && s.sh.writer.None?
    && match l
       case Cleanup(id, _) => PumpAlive(s) && s.sh.timers == {} && NobodyElseMinds(s, id)
       case Abandon(id, _) =>
         && PumpAlive(s) && s.lock.None? && s.sh.timers == {}
         && Minds(s.tasks[id]) && NobodyElseMinds(s, id)
       case Enter(id, _, _) =>
         && HoldsNothing(s.tasks[id].kind) && PumpAlive(s)
         && s.sh.timers != {} && Remembered(s.sh) && NobodyElseMinds(s, id)
       case LanStarted(id, ok, _, _) =>
         ok && HoldsNothing(s.tasks[id].kind) && Remembered(s.sh) && NobodyElseMinds(s, id)
       case _ => false
  }

  /** The steps that end an unattended stretch: a new caller, or the pump's own end. */
  predicate Revives(s: State, l: Label)
    requires Enabled(s, l)
  {
    || (l.Enter? && !HoldsNothing(s.tasks[l.id].kind))
    || (l.PumpEnds? && s.sh.pumpTask == Some(l.p))
  }

  lemma OneTaskMinds(s: State, s': State, id: Id)
    requires id in s'.tasks && s'.tasks == s.tasks[id := s'.tasks[id]]
    ensures NobodyMinds(s') <==> NobodyElseMinds(s, id) && !Minds(s'.tasks[id])
    ensures id in s.tasks ==> (NobodyMinds(s) <==> NobodyElseMinds(s, id) && !Minds(s.tasks[id]))
  {
    if NobodyMinds(s') {
      forall t | t in s.tasks && t != id ensures !Minds(s.tasks[t]) {
        assert s'.tasks[t] == s.tasks[t];
      }
    }
  }

  lemma PumpReadMinds(c: StreamCrypto, s: State, p: Id, raw: Bytes)
    requires Enabled(s, PumpReads(p, raw))
    ensures Unattended(PumpStep(c, s, p, raw)) <==> Unattended(s)
  {
    hide Increment;
    var s' := PumpStep(c, s, p, raw);
    RelayTimers.PumpReadTimers(c, s, p, raw);
    forall t | t in s.tasks ensures t in s'.tasks && Minds(s'.tasks[t]) == Minds(s.tasks[t]) {
      ForwardMovesNobody(s, Increment(c, s.pumps[p].wire, raw));
    }
    assert s'.tasks.Keys == s.tasks.Keys;
  }

  lemma TeardownEndsSession(s: State, id: Id)
    requires id in s.tasks
    ensures !PumpAlive(BeginTeardown(s, id))
    ensures s.sh.pumpTask.None? ==> !PumpAlive(ResetUpstream(s, id)) && !PumpAlive(EndTeardown(s, id))
  {
  }

  lemma EnterNeglects(c: StreamCrypto, s: State, id: Id, ok: bool, timer: Id)
    requires Enabled(s, Enter(id, ok, timer))
    ensures var l := Enter(id, ok, timer);
            && (!Unattended(s) && Unattended(EnterLocked(s, id, ok, timer)) <==> Neglects(s, l))
            && (Unattended(s) ==> (Unattended(EnterLocked(s, id, ok, timer)) <==> !Revives(s, l)))
  {
    hide RelayBuffer.Snapshot, NobodyMinds, NobodyElseMinds;
    var s' := EnterLocked(s, id, ok, timer);
    match s.tasks[id].kind
    case Viewer =>
      if PumpAlive(s) { OneTaskMinds(s, s', id); } else { TeardownEndsSession(s, id); }
    case Prewarm(hold) =>
      CancelDisarms(s.sh);
      if PumpAlive(s) { OneTaskMinds(s, s', id); } else { TeardownEndsSession(s, id); }
    case CloseTimer =>
      var r := s.(sh := s.sh.(closeHandle := None));
      TeardownEndsSession(r, id);
      assert Minds(s.tasks[id]);
      MindingTask(s, id);
    case Stopper => TeardownEndsSession(s, id);
  }

  lemma MindingTask(s: State, id: Id)
    requires id in s.tasks && Minds(s.tasks[id])
    ensures !NobodyMinds(s)
  {
  }

  lemma CommitNeglects(c: StreamCrypto, s: State, id: Id, session: Id, timer: Id)
    requires Enabled(s, LanStarted(id, true, session, timer)) && s.lock == Some(id)
    requires s.tasks[id].kind.Viewer? || s.tasks[id].kind.Prewarm?
    ensures Unattended(CommitSpinUp(s, id, session, timer)) <==> Neglects(s, LanStarted(id, true, session, timer))
  {
    hide NobodyMinds, NobodyElseMinds;
    CancelDisarms(s.sh);
    OneTaskMinds(s, CommitSpinUp(s, id, session, timer), id);
  }

  lemma TeardownNeglects(c: StreamCrypto, s: State, l: Label)
    requires ControlInv(s) && Enabled(s, l) && RelayStream.TeardownLabel(l)
    ensures !Unattended(s)
    ensures Unattended(Apply(c, s, l)) <==> Neglects(s, l)
  {
    hide ControlInv, NobodyMinds, NobodyElseMinds, CommitSpinUp, BeginTeardown, ResetUpstream, EndTeardown;
    OwnerFacts(s, l.id);
    TeardownEndsSession(s, l.id);
    if l.LanClosed? {
      TeardownEndsSession(s.(clients := s.clients - {s.tasks[l.id].pc.lan}), l.id);
    } else if l.LanStarted? && l.ok {
      CommitNeglects(c, s, l.id, l.session, l.timer);
    }
  }

  lemma PumpNeglects(c: StreamCrypto, s: State, l: Label)
    requires ControlInv(s) && RelayTimers.SessionInv(s) && Enabled(s, l) && PumpLabel(l)
    ensures Unattended(Apply(c, s, l)) <==> Unattended(s) && !Revives(s, l)
  {
    hide PumpStep, RelayBuffer.KeyframeComplete;
    if l.PumpReads? {
      PumpReadMinds(c, s, l.p, l.raw);
    } else if l.PumpWrote? {
      var w := s.pumps[l.p].phase.viewer;
      assert s.sh.writer == Some(w) ==> Minds(s.tasks[w]);
    }
  }

  /** Steps of a viewer, and of tasks that arrive: the timers stay, and who minds the session goes on minding it. */
  lemma TaskNeglects(c: StreamCrypto, s: State, l: Label)
    requires ControlInv(s) && Enabled(s, l)
    requires l.Arrive? || l.KeyframeWaitOver? || l.SnapshotTaken? || l.BurstDrained? || l.Publish? || l.Leave?
          || l.Closed? || l.TransportCloses?
    ensures Unattended(Apply(c, s, l)) <==> Unattended(s)
  {
    var s' := Apply(c, s, l);
    var kind := if l.Arrive? then l.kind else s.tasks[l.id].kind;
    assert !l.Arrive? && !l.Closed? && !l.TransportCloses? ==> kind.Viewer?;
    hide ControlInv, RelayBuffer.Snapshot, NobodyMinds, NobodyElseMinds;
    OneTaskMinds(s, s', l.id);
    if l.Arrive? {
      NewTaskMinds(s, s', l.id);
    }
  }

  lemma NewTaskMinds(s: State, s': State, id: Id)
    requires id !in s.tasks && id in s'.tasks && s'.tasks == s.tasks[id := s'.tasks[id]]
    ensures NobodyMinds(s') <==> NobodyMinds(s) && !Minds(s'.tasks[id])
  {
    OneTaskMinds(s, s', id);
  }

  lemma LeavingNeglects(c: StreamCrypto, s: State, l: Label)
    requires ControlInv(s) && Enabled(s, l) && (l.Cleanup? || l.Abandon? || l.FailClosed?)
    ensures !Unattended(s) && Unattended(Apply(c, s, l)) <==> Neglects(s, l)
    ensures Unattended(s) ==> Unattended(Apply(c, s, l))
  {
    var s' := Apply(c, s, l);
    assert l.FailClosed? ==> !PumpAlive(s) by {
      assert PumpAllows(s, s.tasks[l.id].pc);
    }
    assert PumpAllows(s, s.tasks[l.id].pc);
    assert LockInv(s) && KindAllows(s.tasks[l.id].kind, s.tasks[l.id].pc);
    hide ControlInv, NobodyMinds, NobodyElseMinds;
    OneTaskMinds(s, s', l.id);
  }

  lemma FireAttends(c: StreamCrypto, s: State, id: Id, timer: Id)
    requires Enabled(s, Fire(id, timer))
    ensures !Unattended(s) && !Unattended(Apply(c, s, Fire(id, timer)))
  {
    MindingTask(Apply(c, s, Fire(id, timer)), id);
  }

  lemma StepNeglects(c: StreamCrypto, s: State, l: Label)
    requires ControlInv(s) && RelayTimers.SessionInv(s) && Enabled(s, l)
    ensures !Unattended(s) && Unattended(Apply(c, s, l)) <==> Neglects(s, l)
    ensures Unattended(s) ==> (Unattended(Apply(c, s, l)) <==> !Revives(s, l))
  {
    hide ControlInv, RelayTimers.SessionInv, Unattended, PumpAlive, NobodyElseMinds;
    if l.Enter? {
      EnterNeglects(c, s, l.id, l.ok, l.timer);
    } else if RelayStream.TeardownLabel(l) {
      TeardownNeglects(c, s, l);
    } else if PumpLabel(l) {
      PumpNeglects(c, s, l);
    } else if l.Cleanup? || l.Abandon? || l.FailClosed? {
      LeavingNeglects(c, s, l);
    } else if l.Fire? {
      FireAttends(c, s, l.id, l.timer);
    } else {
      TaskNeglects(c, s, l);
    }
  }

  /** In every reachable state: which steps leave a session unattended, and which end that. */
  lemma UnattendedExactly(c: StreamCrypto, labels: seq<Label>, l: Label)
    requires IsRun(c, labels) && Enabled(After(c, labels), l)
    ensures var s, s' := After(c, labels), Apply(c, After(c, labels), l);
            && (!Unattended(s) && Unattended(s') <==> Neglects(s, l))
            && (Unattended(s) ==> (Unattended(s') <==> !Revives(s, l)))
  {
    RelayTheorems.RunKeepsInvariants(c, labels);
    RelayTimers.RunKeepsSession(c, labels);
    StepNeglects(c, After(c, labels), l);
  }

  /** Step ``k`` neglected the session, and nobody has revived it since. */
  ghost predicate NeglectedAt(c: StreamCrypto, labels: seq<Label>, k: nat)
  {
    && k < |labels| && IsRun(c, labels[..k]) && Enabled(After(c, labels[..k]), labels[k])
    && Neglects(After(c, labels[..k]), labels[k])
    && (forall j | k < j < |labels| ::
          && IsRun(c, labels[..j]) && Enabled(After(c, labels[..j]), labels[j])
          && !Revives(After(c, labels[..j]), labels[j]))
  }

  lemma NeglectedLater(c: StreamCrypto, labels: seq<Label>, k: nat)
    requires labels != [] && IsRun(c, labels) && NeglectedAt(c, labels[..|labels| - 1], k)
    requires !Revives(After(c, labels[..|labels| - 1]), labels[|labels| - 1])
    ensures NeglectedAt(c, labels, k)
  {
    hide Enabled, IsRun, Revives, Neglects, After;
    var before := labels[..|labels| - 1];
    LastStep(c, labels);
    forall j | 0 <= j < |labels| ensures before[..j] == labels[..j] {}
    forall j | k < j < |labels|
      ensures IsRun(c, labels[..j]) && Enabled(After(c, labels[..j]), labels[j])
      ensures !Revives(After(c, labels[..j]), labels[j])
    {
      if j < |before| {
        assert before[j] == labels[j];
      }
    }
  }

  lemma LastStep(c: StreamCrypto, labels: seq<Label>)
    requires labels != [] && IsRun(c, labels)
    ensures IsRun(c, labels[..|labels| - 1]) && Enabled(After(c, labels[..|labels| - 1]), labels[|labels| - 1])
  {
  }

  /** Every unattended session goes back to one of the steps listed. */
  lemma {:induction false} UnattendedSince(c: StreamCrypto, labels: seq<Label>) returns (k: nat)
    requires IsRun(c, labels) && Unattended(After(c, labels))
    ensures NeglectedAt(c, labels, k)
    decreases |labels|
  {
    var n := |labels| - 1;
    var before, l := labels[..n], labels[n];
    UnattendedExactly(c, before, l);
    if Unattended(After(c, before)) {
      k := UnattendedSince(c, before);
      NeglectedLater(c, labels, k);
    } else {
      k := n;
    }
  }

  /** And every such step leads to an unattended session, until somebody revives it. */
  lemma {:induction false} UnattendedUntilRevived(c: StreamCrypto, labels: seq<Label>, k: nat)
    requires IsRun(c, labels) && NeglectedAt(c, labels, k)
    ensures Unattended(After(c, labels))
    decreases |labels|
  {
    hide *;
    NeglectedEarlier(c, labels, k);
    var n := |labels| - 1;
    var before, l := labels[..n], labels[n];
    UnattendedExactly(c, before, l);
    if k < n {
      UnattendedUntilRevived(c, before, k);
    }
  }

  lemma NeglectedEarlier(c: StreamCrypto, labels: seq<Label>, k: nat)
    requires IsRun(c, labels) && NeglectedAt(c, labels, k)
    ensures labels != [] && k <= |labels| - 1
    ensures var before, l := labels[..|labels| - 1], labels[|labels| - 1];
            && IsRun(c, before) && Enabled(After(c, before), l) && After(c, labels) == Apply(c, After(c, before), l)
            && (if k < |before| then NeglectedAt(c, before, k) && !Revives(After(c, before), l)
                else Neglects(After(c, before), l))
  {
    hide Enabled, Apply, Neglects, Revives;
    var n := |labels| - 1;
    var before := labels[..n];
    forall j | 0 <= j < n ensures before[..j] == labels[..j] && before[j] == labels[j] {}
    assert labels[..n] == before;
  }

  /** A viewer that was published and is no longer was superseded, cleaned up, or lost by its own broken pipe. */
  ghost predicate Detaches(s: State, l: Label, v: Id)
    requires Enabled(s, l)
  {
    || (l.Publish? && l.id != v)
    || (l.Cleanup? && l.id == v)
    || (l.PumpWrote? && !l.ok && s.pumps[l.p].phase == Writing(v))
  }

  lemma DetachedNow(c: StreamCrypto, labels: seq<Label>, l: Label, v: Id)
    requires IsRun(c, labels) && Enabled(After(c, labels), l)
    requires After(c, labels).sh.writer == Some(v) && Apply(c, After(c, labels), l).sh.writer != Some(v)
    ensures Detaches(After(c, labels), l, v)
  {
    RelayTheorems.OnlyItsOwnEndDetaches(c, labels, l, v);
  }

  /** Why the published viewer of an earlier point is not the published one any more. */
  lemma {:induction false} DetachedBecause(c: StreamCrypto, labels: seq<Label>, i: nat, v: Id) returns (k: nat)
    requires IsRun(c, labels) && i <= |labels| && IsRun(c, labels[..i])
    requires After(c, labels[..i]).sh.writer == Some(v) && After(c, labels).sh.writer != Some(v)
    ensures i <= k < |labels| && IsRun(c, labels[..k]) && Enabled(After(c, labels[..k]), labels[k])
    ensures Detaches(After(c, labels[..k]), labels[k], v)
    decreases |labels|
  {
    hide Enabled, Apply, Detaches;
    assert labels[..|labels|] == labels;
    var n := |labels| - 1;
    var before := labels[..n];
    assert before[..i] == labels[..i];
    if After(c, before).sh.writer == Some(v) {
      k := n;
      DetachedNow(c, before, labels[n], v);
    } else {
      k := DetachedBecause(c, before, i, v);
      assert before[..k] == labels[..k];
    }
  }

  // Runs that end unattended.

  /** A prewarm call that holds nothing starts a session that nothing will close. */
  lemma ShortPrewarmRun(c: StreamCrypto, hold: real) returns (labels: seq<Label>)
    requires hold <= 0.0
    ensures IsRun(c, labels) && Unattended(After(c, labels))
  {
    labels := Connect(c, hold);
    RunSnoc(c, labels, LanStarted(0, true, 0, 0));
    labels := labels + [LanStarted(0, true, 0, 0)];
  }

  /** The only viewer waits for the keyframe; its entry has cancelled the close timer. */
  ghost predicate WaitsAlone(s: State)
  {
    && s.lock.None? && s.sh.writer.None? && s.sh.timers == {} && PumpAlive(s)
    && s.tasks.Keys == {0, 1} && s.tasks[0].pc == Done && s.tasks[1].kind.Viewer? && s.tasks[1].pc == WaitKeyframe
  }

  lemma WaitsForKeyframe(s: State)
    requires Awaits(s, [], WaitKeyframe)
    ensures WaitsAlone(s)
  {
  }

  lemma WaitAbandoned(c: StreamCrypto, s: State)
    requires WaitsAlone(s)
    ensures Enabled(s, Abandon(1, None)) && Unattended(Apply(c, s, Abandon(1, None)))
  {
  }

  /** A viewer is cancelled while it waits for the keyframe. */
  lemma AbandonedViewerRun(c: StreamCrypto) returns (labels: seq<Label>)
    ensures IsRun(c, labels) && Unattended(After(c, labels))
  {
    hide Awaits, WaitsAlone, Unattended;
    labels := WaitReads(c, []);
    WaitsForKeyframe(After(c, labels));
    WaitAbandoned(c, After(c, labels));
    RunSnoc(c, labels, Abandon(1, None));
    labels := labels + [Abandon(1, None)];
  }

  /** The only viewer is about to clean up, but it is not the published one, and no timer is armed. */
  ghost predicate Unpublished(s: State)
  {
    && s.lock.None? && s.sh.writer.None? && s.sh.timers == {} && s.sh.closeHandle.None? && PumpAlive(s)
    && s.tasks.Keys == {0, 1} && s.tasks[0].pc == Done
    && s.tasks[1].kind.Viewer? && s.tasks[1].pc == WaitCleanup
  }

  lemma UnpublishedCleansUp(c: StreamCrypto, s: State)
    requires Unpublished(s)
    ensures Enabled(s, Cleanup(1, 1)) && Unattended(Apply(c, s, Cleanup(1, 1)))
  {
  }

  lemma BurstBreaks(c: StreamCrypto, s: State, wire: Bytes, burst: Bytes, at: nat)
    requires InBurst(s, wire, burst, at)
    ensures Enabled(s, BurstDrained(1, false)) && Unpublished(Apply(c, s, BurstDrained(1, false)))
  {
  }

  /** A viewer's entry cancels the close timer, its burst breaks, and its cleanup sets no new one. */
  lemma BrokenBurstRun(c: StreamCrypto, wire: Bytes) returns (labels: seq<Label>)
    requires Reference(c, wire) != []
    ensures IsRun(c, labels) && Unattended(After(c, labels))
  {
    hide Reference, RelayBuffer.Snapshot, InBurst, Unattended, Unpublished;
    labels := BurstRun(c, wire);
    BurstBreaks(c, After(c, labels), wire, RelayBuffer.Snapshot(Reference(c, wire)), |Reference(c, wire)|);
    RunSnoc(c, labels, BurstDrained(1, false));
    labels := labels + [BurstDrained(1, false)];
    UnpublishedCleansUp(c, After(c, labels));
    RunSnoc(c, labels, Cleanup(1, 1));
    labels := labels + [Cleanup(1, 1)];
  }

  lemma PipeBreaks(c: StreamCrypto, s: State, wire: Bytes, delivered: Bytes, h: History)
    requires Live(s, wire, Writing(1), delivered, h)
    ensures Enabled(s, PumpWrote(0, false)) && Enabled(Apply(c, s, PumpWrote(0, false)), Leave(1))
    ensures Unpublished(Apply(c, Apply(c, s, PumpWrote(0, false)), Leave(1)))
  {
  }

  /** The pump finds the viewer's pipe broken first, so the viewer's cleanup sets no timer. */
  lemma BrokenPipeRun(c: StreamCrypto, first: Bytes, second: Bytes, third: Bytes) returns (labels: seq<Label>)
    requires IsChunk(second) && IsChunk(third)
    requires Reference(c, first) != [] && Increment(c, first + second, third) != []
    ensures IsRun(c, labels) && Unattended(After(c, labels))
  {
    hide Reference, Increment, RelayBuffer.Snapshot, Live, Unattended, Unpublished;
    var out, live := Reference(c, first), Increment(c, first + second, third);
    var burst := RelayBuffer.Snapshot(out);
    labels := LiveRun(c, first, second);
    var s := After(c, labels);
    var h := History(0, |out| - |burst|, |out|, true, |s.log|, |s.log|);
    LiveRead(c, s, first + second, burst, h, third);
    RunSnoc(c, labels, PumpReads(0, third));
    labels := labels + [PumpReads(0, third)];
    PipeBreaks(c, After(c, labels), first + second + third, burst + live, h.(upto := |After(c, labels).log|));
    RunSnoc(c, labels, PumpWrote(0, false));
    labels := labels + [PumpWrote(0, false)];
    RunSnoc(c, labels, Leave(1));
    labels := labels + [Leave(1)];
    UnpublishedCleansUp(c, After(c, labels));
    RunSnoc(c, labels, Cleanup(1, 1));
    labels := labels + [Cleanup(1, 1)];
  }
}
