/**
 Nobody gets stuck: the lock always comes free by its owner's own steps, every task can come to its end, and every
 live pump can come to read again.
 */
module RelayProgress {
  import opened ByteStrings
  import opened RelayShared
  import opened StreamSpec
  import opened Relay
  import opened RelayInvariants
  import opened RelayRuns
  import RelayBuffer
  import RelayEarlyClose
  import RelayStream
  import RelayTheorems
  import RelayTimers

  // New names.

  ghost function Above(ids: set<Id>): (r: Id)
    ensures forall i | i in ids :: i < r
  {
    if ids == {} then 0
    else
      var i :| i in ids;
      var r := Above(ids - {i});
      assert forall j | j in ids :: j == i || j in ids - {i};
      if i < r then r else i + 1
  }

  ghost function NewTimer(sh: Shared): (r: Id)
    ensures FreshTimer(sh, r)
  {
    Above(sh.timers + (if sh.closeHandle.Some? then {sh.closeHandle.value} else {}))
  }

  ghost function NewClient(s: State): (r: Id)
    ensures FreshClient(s, r)
  {
    Above(s.pumps.Keys + s.clients)
  }

  // The lock.

  /** What the owner of the lock is waiting for, if the key fetch and the connection turn out as said. */
  ghost function OwnersNext(s: State, keyOk: bool, startOk: bool): Label
    requires s.lock.Some? && s.lock.value in s.tasks && HoldsLock(s.tasks[s.lock.value].pc)
  {
    var o := s.lock.value;
    match s.tasks[o].pc
    case FetchingKey => KeyFetched(o, keyOk)
    case StartingLan => LanStarted(o, startOk, NewClient(s), NewTimer(s.sh))
    case AwaitingPump(p) => if Alive(s, p) then PumpEnds(p) else PumpAwaited(o)
    case ClosingLan(_) => LanClosed(o)
    case _ => FailClosed(o)
  }

  /** How many steps that may take. */
  function StepsLeft(s: State): nat
  {
    if s.lock.None? || s.lock.value !in s.tasks then 0
    else
      match s.tasks[s.lock.value].pc
      case FetchingKey => 4
      case StartingLan => 3
      case AwaitingPump(p) => if Alive(s, p) then 4 else 3
      case ClosingLan(_) => 2
      case _ => 1
  }

  predicate AwaitsLivePump(s: State, o: Id)
  {
    o in s.tasks && s.tasks[o].pc.AwaitingPump? && Alive(s, s.tasks[o].pc.p)
  }

  /** A step of the owner itself, or the end of the pump it has cancelled and awaits. */
  predicate HelpsOwner(s: State, o: Id, l: Label)
  {
    || ((l.KeyFetched? || l.LanStarted? || l.PumpAwaited? || l.LanClosed? || l.FailClosed?) && l.id == o)
    || (AwaitsLivePump(s, o) && l == PumpEnds(s.tasks[o].pc.p) && l.p in s.pumps && s.pumps[l.p].cancelled)
  }

  /** Where the owner is once it let go: waiting for its keyframe if the step started its session, else at its end. */
  predicate Released(s: State, o: Id, l: Label)
  {
    && s.lock.None? && o in s.tasks
    && s.tasks[o].pc == if l.LanStarted? && l.ok && s.tasks[o].kind.Viewer? then WaitKeyframe else Done
  }

  ghost predicate MovesOwner(s: State, s': State, o: Id)
  {
    o in s.tasks && o in s'.tasks && s'.tasks == s.tasks[o := s'.tasks[o]] && s'.tasks[o].kind == s.tasks[o].kind
  }

  lemma EndReleases(s: State, o: Id)
    requires o in s.tasks && s.lock == Some(o)
    ensures var s' := EndTeardown(s, o);
            MovesOwner(s, s', o)
            && if s.tasks[o].kind.Viewer? then s'.lock == Some(o) && StepsLeft(s') == 1
               else s'.lock.None? && s'.tasks[o].pc == Done
  {
  }

  lemma ResetReleases(s: State, o: Id)
    requires o in s.tasks && s.lock == Some(o)
    ensures var s' := ResetUpstream(s, o);
            MovesOwner(s, s', o)
            && if s.sh.lan.Some? || s.tasks[o].kind.Viewer? then s'.lock == Some(o) && 1 <= StepsLeft(s') <= 2
               else s'.lock.None? && s'.tasks[o].pc == Done
    ensures !AwaitsLivePump(ResetUpstream(s, o), o)
  {
  }

  lemma BeginReleases(s: State, o: Id)
    requires o in s.tasks && s.lock == Some(o) && !PumpAlive(s)
    ensures var s' := BeginTeardown(s, o);
            MovesOwner(s, s', o)
            && (if s'.lock.Some? then s'.lock == Some(o) && 1 <= StepsLeft(s') <= 2 else s'.tasks[o].pc == Done)
    ensures !AwaitsLivePump(BeginTeardown(s, o), o)
  {
    ResetReleases(s.(sh := ForgetPump(s.sh), lock := Some(o)), o);
  }

  /** The step ``l`` of the owner ``o`` is possible, and brings the lock nearer to being free. */
  ghost predicate Nearer(c: StreamCrypto, s: State, o: Id, l: Label)
  {
    && Enabled(s, l) && HelpsOwner(s, o, l)
    && var s' := Apply(c, s, l);
       && MovesOwner(s, s', o) && !AwaitsLivePump(s', o)
       && (if s'.lock.Some? then s'.lock == Some(o) && StepsLeft(s') < StepsLeft(s) else Released(s', o, l))
  }

  lemma KeyFetchedNearer(c: StreamCrypto, s: State, o: Id, ok: bool)
    requires At(s, o, FetchingKey) && s.lock == Some(o) && !PumpAlive(s)
    ensures Nearer(c, s, o, KeyFetched(o, ok))
  {
    hide BeginTeardown;
    BeginReleases(s, o);
  }

  lemma LanStartedNearer(c: StreamCrypto, s: State, o: Id, ok: bool, session: Id, timer: Id)
    requires At(s, o, StartingLan) && s.lock == Some(o) && !PumpAlive(s)
    requires s.tasks[o].kind.Viewer? || s.tasks[o].kind.Prewarm?
    requires FreshClient(s, session) && FreshTimer(s.sh, timer)
    ensures Nearer(c, s, o, LanStarted(o, ok, session, timer))
  {
    hide BeginTeardown;
    BeginReleases(s, o);
  }

  lemma PumpAwaitedNearer(c: StreamCrypto, s: State, o: Id, p: Id)
    requires At(s, o, AwaitingPump(p)) && s.lock == Some(o) && p in s.pumps && s.pumps[p].cancelled
    ensures Nearer(c, s, o, if Alive(s, p) then PumpEnds(p) else PumpAwaited(o))
  {
    hide ResetUpstream;
    ResetReleases(s, o);
  }

  lemma LanClosedNearer(c: StreamCrypto, s: State, o: Id)
    requires o in s.tasks && s.tasks[o].pc.ClosingLan? && s.lock == Some(o)
    ensures Nearer(c, s, o, LanClosed(o))
  {
    EndReleases(s.(clients := s.clients - {s.tasks[o].pc.lan}), o);
  }

  lemma FailClosedNearer(c: StreamCrypto, s: State, o: Id)
    requires At(s, o, FailClosing) && s.lock == Some(o)
    ensures Nearer(c, s, o, FailClosed(o))
  {
  }

  lemma OwnerKnown(s: State)
    requires ControlInv(s) && s.lock.Some?
    ensures s.lock.value in s.tasks && HoldsLock(s.tasks[s.lock.value].pc)
    ensures KindAllows(s.tasks[s.lock.value].kind, s.tasks[s.lock.value].pc)
    ensures PumpAllows(s, s.tasks[s.lock.value].pc)
  {
  }

  lemma NextNearer(c: StreamCrypto, s: State, keyOk: bool, startOk: bool)
    requires ControlInv(s) && s.lock.Some?
    ensures s.lock.value in s.tasks && HoldsLock(s.tasks[s.lock.value].pc)
    ensures Nearer(c, s, s.lock.value, OwnersNext(s, keyOk, startOk))
  {
    hide ControlInv, Nearer;
    OwnerKnown(s);
    var o := s.lock.value;
    match s.tasks[o].pc
    case FetchingKey => KeyFetchedNearer(c, s, o, keyOk);
    case StartingLan => LanStartedNearer(c, s, o, startOk, NewClient(s), NewTimer(s.sh));
    case AwaitingPump(p) => PumpAwaitedNearer(c, s, o, p);
    case ClosingLan(_) => LanClosedNearer(c, s, o);
    case _ => FailClosedNearer(c, s, o);
  }

  /** The steps ``more`` free the lock of state ``s``, helping its owner only. */
  ghost predicate Frees(c: StreamCrypto, labels: seq<Label>, more: seq<Label>)
    requires IsRun(c, labels) && IsRun(c, labels + more)
  {
    var s, s' := After(c, labels), After(c, labels + more);
    && s.lock.Some? && 1 <= |more| <= StepsLeft(s)
    && (forall i | 0 <= i < |more| :: HelpsOwner(s, s.lock.value, more[i]))
    && MovesOwner(s, s', s.lock.value)
    && Released(s', s.lock.value, more[|more| - 1])
  }

  /**
   Whenever the lock is held, at most four steps free it, whatever the key fetch and the connection turn out like: the
   owner's own, and before them the end of the pump it has cancelled.  A viewer whose start failed ends there.
   */
  lemma {:induction false} LockComesFree(c: StreamCrypto, labels: seq<Label>, keyOk: bool, startOk: bool)
    returns (more: seq<Label>)
    requires IsRun(c, labels) && After(c, labels).lock.Some?
    ensures IsRun(c, labels + more) && Frees(c, labels, more) && |more| <= 4
    decreases StepsLeft(After(c, labels))
  {
    hide *;
    var s := After(c, labels);
    RelayTheorems.RunKeepsInvariants(c, labels);
    NextNearer(c, s, keyOk, startOk);
    var o, l := s.lock.value, OwnersNext(s, keyOk, startOk);
    NearerStep(c, labels, o, l);
    if After(c, labels + [l]).lock.None? {
      more := [l];
    } else {
      var rest := LockComesFree(c, labels + [l], keyOk, startOk);
      more := [l] + rest;
      FreesLater(c, labels, l, rest);
    }
    AtMostFour(s);
    FreesBounded(c, labels, more);
  }

  lemma FreesBounded(c: StreamCrypto, labels: seq<Label>, more: seq<Label>)
    requires IsRun(c, labels) && IsRun(c, labels + more) && Frees(c, labels, more)
    ensures |more| <= StepsLeft(After(c, labels))
  {
  }

  lemma AtMostFour(s: State)
    ensures StepsLeft(s) <= 4
  {
  }

  lemma NearerStep(c: StreamCrypto, labels: seq<Label>, o: Id, l: Label)
    requires IsRun(c, labels) && After(c, labels).lock == Some(o) && Nearer(c, After(c, labels), o, l)
    ensures IsRun(c, labels + [l]) && After(c, labels + [l]) == Apply(c, After(c, labels), l)
    ensures var s1 := After(c, labels + [l]);
            if s1.lock.None? then Frees(c, labels, [l])
            else s1.lock == Some(o) && StepsLeft(s1) < StepsLeft(After(c, labels))
  {
    hide Enabled, Apply, HelpsOwner, MovesOwner, Released;
    StepsRemain(After(c, labels), o);
    NearerIsEnabled(c, After(c, labels), o, l);
    RunSnoc(c, labels, l);
  }

  lemma NearerIsEnabled(c: StreamCrypto, s: State, o: Id, l: Label)
    requires Nearer(c, s, o, l)
    ensures Enabled(s, l) && o in s.tasks
  {
  }

  lemma StepsRemain(s: State, o: Id)
    requires s.lock == Some(o)
    ensures o in s.tasks ==> StepsLeft(s) >= 1
  {
  }

  lemma FreesLater(c: StreamCrypto, labels: seq<Label>, l: Label, rest: seq<Label>)
    requires IsRun(c, labels) && After(c, labels).lock.Some?
    requires Nearer(c, After(c, labels), After(c, labels).lock.value, l)
    requires IsRun(c, labels + [l]) && After(c, labels + [l]) == Apply(c, After(c, labels), l)
    requires After(c, labels + [l]).lock == After(c, labels).lock
    requires StepsLeft(After(c, labels + [l])) < StepsLeft(After(c, labels))
    requires IsRun(c, labels + [l] + rest) && Frees(c, labels + [l], rest)
    ensures IsRun(c, labels + ([l] + rest)) && Frees(c, labels, [l] + rest)
  {
    hide Enabled, Apply, HelpsOwner, Released, AwaitsLivePump, After;
    var s, s1, more := After(c, labels), After(c, labels + [l]), [l] + rest;
    var o := s.lock.value;
    assert labels + more == labels + [l] + rest;
    forall i | 0 <= i < |more| ensures HelpsOwner(s, o, more[i]) {
      if i > 0 {
        assert more[i] == rest[i - 1];
        OwnStepsHelp(s1, s, o, rest[i - 1]);
      }
    }
    ReleasedAlike(s1, After(c, labels + more), s, o);
  }

  lemma OwnStepsHelp(s1: State, s: State, o: Id, l: Label)
    requires HelpsOwner(s1, o, l) && !AwaitsLivePump(s1, o)
    ensures HelpsOwner(s, o, l)
  {
  }

  lemma ReleasedAlike(s1: State, s': State, s: State, o: Id)
    requires MovesOwner(s, s1, o) && MovesOwner(s1, s', o)
    ensures MovesOwner(s, s', o)
  {
  }

  /** A cancelled task is at its end and holds no lock, and everything else is as it was. */
  lemma CancelledTasksLetGo(c: StreamCrypto, labels: seq<Label>, id: Id, started: Option<Id>)
    requires IsRun(c, labels) && Enabled(After(c, labels), Abandon(id, started))
    ensures var s, s' := After(c, labels), Apply(c, After(c, labels), Abandon(id, started));
            && MovesOwner(s, s', id) && s'.tasks[id].pc == Done && s'.tasks[id].delivered == s.tasks[id].delivered
            && s'.lock == (if s.lock == Some(id) then None else s.lock)
            && s'.sh == s.sh && s'.pumps == s.pumps && s'.log == s.log
  {
    RelayTheorems.RunKeepsInvariants(c, labels);
    CancelledLetsGo(c, After(c, labels), id, started);
  }

  lemma CancelledLetsGo(c: StreamCrypto, s: State, id: Id, started: Option<Id>)
    requires ControlInv(s) && Enabled(s, Abandon(id, started))
    ensures var s' := Apply(c, s, Abandon(id, started));
            && MovesOwner(s, s', id) && s'.tasks[id].pc == Done && s'.tasks[id].delivered == s.tasks[id].delivered
            && s'.lock == (if s.lock == Some(id) then None else s.lock)
            && s'.sh == s.sh && s'.pumps == s.pumps && s'.log == s.log
  {
    assert LockInv(s);
  }

  // Stop.

  /** Nothing of a session is left. */
  predicate Cleared(s: State)
  {
    && s.lock.None? && s.sh.pumpTask.None? && s.sh.lan.None? && s.sh.buffer == [] && !s.sh.keyframeSeen
    && s.sh.closeHandle.None?
  }

  /** Where a stop stands while it waits: for the pump it has cancelled, or for the client to close. */
  ghost predicate Stopping(s: State, t: Id, timers: set<Id>)
  {
    && t in s.tasks && s.tasks[t].kind.Stopper?
    && s.sh.pumpTask.None? && s.sh.closeHandle.None? && s.sh.timers == timers
    && match s.tasks[t].pc
       case AwaitingPump(p) => s.lock == Some(t)
       case ClosingLan(_) => s.lock == Some(t) && Cleared(s.(lock := None))
       case Done => Cleared(s)
       case _ => false
  }

  lemma StopResets(s: State, t: Id, timers: set<Id>)
    requires t in s.tasks && s.tasks[t].kind.Stopper? && s.lock == Some(t)
    requires s.sh.pumpTask.None? && s.sh.closeHandle.None? && s.sh.timers == timers
    ensures Stopping(ResetUpstream(s, t), t, timers)
  {
  }

  lemma StopBegins(c: StreamCrypto, s: State, t: Id, timer: Id)
    requires Enabled(s, Enter(t, true, timer)) && s.tasks[t].kind.Stopper?
    ensures Stopping(Apply(c, s, Enter(t, true, timer)), t, CancelClose(s.sh).timers)
  {
    if !PumpAlive(s) {
      StopResets(s.(sh := ForgetPump(s.sh), lock := Some(t)), t, CancelClose(s.sh).timers);
    }
  }

  lemma StopGoesOn(c: StreamCrypto, s: State, t: Id, timers: set<Id>, l: Label)
    requires Stopping(s, t, timers) && s.lock == Some(t) && Nearer(c, s, t, l) && l == OwnersNext(s, true, true)
    ensures Stopping(Apply(c, s, l), t, timers)
  {
    hide ResetUpstream, NewClient, NewTimer;
    if l.PumpAwaited? {
      StopResets(s, t, timers);
    }
  }

  lemma {:induction false} StopFinishes(c: StreamCrypto, labels: seq<Label>, t: Id, timers: set<Id>)
    returns (more: seq<Label>)
    requires IsRun(c, labels) && Stopping(After(c, labels), t, timers)
    ensures IsRun(c, labels + more) && |more| <= 4
    ensures |more| <= StepsLeft(After(c, labels))
    ensures Stopping(After(c, labels + more), t, timers) && After(c, labels + more).lock.None?
    decreases StepsLeft(After(c, labels))
  {
    hide *;
    var s := After(c, labels);
    AtMostFour(s);
    if s.lock.None? {
      more := [];
      assert labels + more == labels;
    } else {
      RelayTheorems.RunKeepsInvariants(c, labels);
      NextNearer(c, s, true, true);
      StopOwns(s, t, timers);
      var l := OwnersNext(s, true, true);
      StopGoesOn(c, s, t, timers, l);
      NearerStep(c, labels, t, l);
      if After(c, labels + [l]).lock.None? {
        StepsRemain(s, t);
        more := [l];
      } else {
        var rest := StopFinishes(c, labels + [l], t, timers);
        more := [l] + rest;
        assert labels + more == labels + [l] + rest;
      }
    }
  }

  lemma StopOwns(s: State, t: Id, timers: set<Id>)
    requires Stopping(s, t, timers) && s.lock.Some?
    ensures s.lock == Some(t) && t in s.tasks
  {
  }

  /**
   A stop that gets the lock ends everything in at most four more steps: no pump lives, no client is known, buffer and
   event are empty, and no timer is armed, exactly if every armed one was remembered.
   */
  lemma StopEndsEverything(c: StreamCrypto, labels: seq<Label>, t: Id, timer: Id) returns (more: seq<Label>)
    requires IsRun(c, labels) && Enabled(After(c, labels), Enter(t, true, timer))
    requires After(c, labels).tasks[t].kind.Stopper?
    ensures IsRun(c, labels + [Enter(t, true, timer)] + more) && |more| <= 4
    ensures var s, s' := After(c, labels), After(c, labels + [Enter(t, true, timer)] + more);
            && Cleared(s') && (forall p :: !Alive(s', p)) && At(s', t, Done)
            && (s'.sh.timers == {} <==> Remembered(s.sh))
  {
    hide *;
    var s := After(c, labels);
    StopBegins(c, s, t, timer);
    RunSnoc(c, labels, Enter(t, true, timer));
    var first := labels + [Enter(t, true, timer)];
    more := StopFinishes(c, first, t, CancelClose(s.sh).timers);
    CancelDisarms(s.sh);
    RelayTheorems.RunKeepsInvariants(c, first + more);
    StoppedIsCleared(After(c, first + more), t, CancelClose(s.sh).timers);
  }

  lemma StoppedIsCleared(s: State, t: Id, timers: set<Id>)
    requires ControlInv(s) && Stopping(s, t, timers) && s.lock.None?
    ensures Cleared(s) && At(s, t, Done) && s.sh.timers == timers && forall p :: !Alive(s, p)
  {
    assert PumpInv(s);
  }

  // Publication.

  /** The latest viewer always takes over, whoever was published before; from then on it is sent what is pumped. */
  lemma LatestViewerTakesOver(c: StreamCrypto, labels: seq<Label>, v: Id)
    requires IsRun(c, labels) && Enabled(After(c, labels), Publish(v))
    ensures var s, s' := After(c, labels), Apply(c, After(c, labels), Publish(v));
            && s'.sh.writer == Some(v) && v in s'.tasks && s'.tasks[v].pc == Attached
            && s'.tasks[v].delivered == s.tasks[v].delivered && s'.tasks[v].history.Some?
            && s'.tasks[v].history.value.published && s'.tasks[v].history.value.live == |s.log|
  {
    RelayTheorems.RunKeepsInvariants(c, labels);
    assert RelayStream.TaskOk(After(c, labels).tasks[v], After(c, labels).log, After(c, labels).base);
  }

  // Every task.

  /** The steps a task still has before it, if all goes well. */
  function StepsToDone(pc: Pc): nat
  {
    match pc
    case Waiting => 12
    case WaitKeyframe => 7
    case WaitSnapshot => 6
    case Draining => 5
    case WaitPublish => 4
    case Attached => 3
    case WaitCleanup => 2
    case Closing => 1
    case Done => 0
    case _ => 11
  }

  /** A task's next step while the lock is free. */
  ghost function TasksNext(s: State, t: Id): Label
    requires t in s.tasks
  {
    match s.tasks[t].pc
    case Waiting => Enter(t, true, NewTimer(s.sh))
    case WaitKeyframe => KeyframeWaitOver(t)
    case WaitSnapshot => SnapshotTaken(t)
    case Draining => BurstDrained(t, true)
    case WaitPublish => Publish(t)
    case Attached => Leave(t)
    case WaitCleanup => Cleanup(t, NewTimer(s.sh))
    case _ => Closed(t)
  }

  /** A task's own step on, which is never its cancellation. */
  ghost predicate StepsOn(c: StreamCrypto, s: State, t: Id, l: Label)
  {
    && Enabled(s, l) && !l.Abandon? && t in s.tasks
    && var s' := Apply(c, s, l);
       && t in s'.tasks && StepsToDone(s'.tasks[t].pc) < StepsToDone(s.tasks[t].pc)
       && (s'.lock.Some? ==> s'.lock == Some(t))
  }

  lemma TaskStepsOn(c: StreamCrypto, s: State, t: Id)
    requires s.lock.None? && t in s.tasks && !HoldsLock(s.tasks[t].pc) && s.tasks[t].pc != Done
    ensures StepsOn(c, s, t, TasksNext(s, t))
  {
    hide StepsOn, NewTimer;
    match s.tasks[t].pc
    case Waiting => EnterStepsOn(c, s, t, NewTimer(s.sh));
    case WaitKeyframe => BurstStepsOn(c, s, t);
    case WaitSnapshot => BurstStepsOn(c, s, t);
    case Draining => BurstStepsOn(c, s, t);
    case WaitCleanup => CleanupStepsOn(c, s, t, NewTimer(s.sh));
    case _ => ViewerStepsOn(c, s, t);
  }

  lemma BurstStepsOn(c: StreamCrypto, s: State, t: Id)
    requires s.lock.None? && t in s.tasks
    requires s.tasks[t].pc == WaitKeyframe || s.tasks[t].pc == WaitSnapshot || s.tasks[t].pc == Draining
    ensures StepsOn(c, s, t, TasksNext(s, t))
  {
    hide RelayBuffer.Snapshot, NewTimer;
  }

  lemma CleanupStepsOn(c: StreamCrypto, s: State, t: Id, timer: Id)
    requires At(s, t, WaitCleanup) && s.lock.None? && FreshTimer(s.sh, timer)
    ensures StepsOn(c, s, t, Cleanup(t, timer))
  {
  }

  lemma ViewerStepsOn(c: StreamCrypto, s: State, t: Id)
    requires s.lock.None? && t in s.tasks
    requires s.tasks[t].pc == WaitPublish || s.tasks[t].pc == Attached || s.tasks[t].pc == Closing
    ensures StepsOn(c, s, t, TasksNext(s, t))
  {
    hide NewTimer;
  }

  lemma EnterStepsOn(c: StreamCrypto, s: State, t: Id, timer: Id)
    requires Enabled(s, Enter(t, true, timer))
    ensures StepsOn(c, s, t, Enter(t, true, timer))
  {
    hide RelayBuffer.Snapshot, BeginTeardown;
    TeardownStepsOn(s, t);
    TeardownStepsOn(s.(sh := s.sh.(closeHandle := None)), t);
  }

  lemma TeardownStepsOn(s: State, t: Id)
    requires t in s.tasks
    ensures var s' := BeginTeardown(s, t);
            t in s'.tasks && StepsToDone(s'.tasks[t].pc) <= 11 && (s'.lock.None? || s'.lock == Some(t))
  {
  }

  /** What freeing the lock first may add. */
  function StepsTo(s: State, t: Id): nat
    requires t in s.tasks
  {
    StepsToDone(s.tasks[t].pc) + if s.lock.Some? && s.lock != Some(t) then 4 else 0
  }

  /** The steps ``more`` bring task ``t`` to its end, and cancel nobody. */
  ghost predicate Finishes(c: StreamCrypto, labels: seq<Label>, more: seq<Label>, t: Id)
    requires IsRun(c, labels + more)
  {
    && (forall i | 0 <= i < |more| :: !more[i].Abandon?)
    && t in After(c, labels + more).tasks && After(c, labels + more).tasks[t].pc == Done
  }

  /** From every reachable state every task can come to its end in at most sixteen steps, none a cancellation. */
  lemma {:induction false} TaskFinishes(c: StreamCrypto, labels: seq<Label>, t: Id) returns (more: seq<Label>)
    requires IsRun(c, labels) && t in After(c, labels).tasks
    ensures IsRun(c, labels + more) && Finishes(c, labels, more, t) && |more| <= StepsTo(After(c, labels), t) <= 16
    decreases StepsTo(After(c, labels), t)
  {
    hide *;
    var s := After(c, labels);
    StepsBounded(s, t);
    RelayTheorems.RunKeepsInvariants(c, labels);
    if s.lock.Some? {
      var first := LockComesFree(c, labels, true, true);
      FreedNearer(c, labels, first, t);
      var rest := TaskFinishes(c, labels + first, t);
      more := first + rest;
      FinishesLater(c, labels, first, rest, t);
    } else if s.tasks[t].pc == Done {
      more := [];
      DoneFinishes(c, labels, t);
    } else {
      NobodyInside(s, t);
      TaskStepsOn(c, s, t);
      var l := TasksNext(s, t);
      SteppedNearer(c, labels, l, t);
      var rest := TaskFinishes(c, labels + [l], t);
      more := [l] + rest;
      FinishesLater(c, labels, [l], rest, t);
    }
  }

  lemma StepsBounded(s: State, t: Id)
    requires t in s.tasks
    ensures StepsTo(s, t) <= 16
  {
  }

  lemma NobodyInside(s: State, t: Id)
    requires ControlInv(s) && s.lock.None? && t in s.tasks
    ensures !HoldsLock(s.tasks[t].pc)
  {
  }

  lemma DoneFinishes(c: StreamCrypto, labels: seq<Label>, t: Id)
    requires IsRun(c, labels) && t in After(c, labels).tasks && After(c, labels).tasks[t].pc == Done
    ensures labels + [] == labels && IsRun(c, labels + []) && Finishes(c, labels, [], t)
  {
    assert labels + [] == labels;
  }

  lemma FreedNearer(c: StreamCrypto, labels: seq<Label>, first: seq<Label>, t: Id)
    requires IsRun(c, labels) && t in After(c, labels).tasks && ControlInv(After(c, labels))
    requires IsRun(c, labels + first) && Frees(c, labels, first)
    ensures t in After(c, labels + first).tasks
    ensures 1 <= |first| && |first| + StepsTo(After(c, labels + first), t) <= StepsTo(After(c, labels), t)
    ensures forall i | 0 <= i < |first| :: !first[i].Abandon?
  {
    hide Enabled, Apply, After;
    var s := After(c, labels);
    OwnerKnown(s);
    AtMostFour(s);
    assert forall i | 0 <= i < |first| :: HelpsOwner(s, s.lock.value, first[i]);
  }

  lemma SteppedNearer(c: StreamCrypto, labels: seq<Label>, l: Label, t: Id)
    requires IsRun(c, labels) && t in After(c, labels).tasks && After(c, labels).lock.None?
    requires StepsOn(c, After(c, labels), t, l)
    ensures IsRun(c, labels + [l]) && t in After(c, labels + [l]).tasks && !l.Abandon?
    ensures 1 + StepsTo(After(c, labels + [l]), t) <= StepsTo(After(c, labels), t)
  {
    hide Enabled, Apply;
    RunSnoc(c, labels, l);
  }

  lemma FinishesLater(c: StreamCrypto, labels: seq<Label>, first: seq<Label>, rest: seq<Label>, t: Id)
    requires IsRun(c, labels + first) && IsRun(c, labels + first + rest) && Finishes(c, labels + first, rest, t)
    requires forall i | 0 <= i < |first| :: !first[i].Abandon?
    ensures IsRun(c, labels + (first + rest)) && Finishes(c, labels, first + rest, t)
  {
    hide Enabled, Apply, After, IsRun;
    assert labels + (first + rest) == labels + first + rest;
  }

  // The pump.

  /** A live pump that is not reading comes to read again by one step of its own. */
  lemma PumpGoesOn(c: StreamCrypto, labels: seq<Label>, ok: bool)
    requires IsRun(c, labels) && PumpAlive(After(c, labels))
    ensures var s, p := After(c, labels), After(c, labels).sh.pumpTask.value;
            var l := if s.pumps[p].phase == Created then PumpStarts(p) else PumpWrote(p, ok);
            s.pumps[p].phase != Reading ==>
              && Enabled(s, l)
              && var s' := Apply(c, s, l);
                 && p in s'.pumps && s'.pumps[p] == s.pumps[p].(phase := Reading)
                 && s'.tasks == s.tasks && s'.log == s.log
                 && s'.sh.writer == if l.PumpWrote? && !ok && s.sh.writer == Some(s.pumps[p].phase.viewer) then None
                                    else s.sh.writer
  {
    RelayTheorems.RunKeepsInvariants(c, labels);
    RelayTimers.RunKeepsSession(c, labels);
    PumpStepsOn(c, After(c, labels), ok);
  }

  lemma PumpStepsOn(c: StreamCrypto, s: State, ok: bool)
    requires ControlInv(s) && RelayTimers.SessionInv(s) && PumpAlive(s)
    ensures var p := s.sh.pumpTask.value;
            var l := if s.pumps[p].phase == Created then PumpStarts(p) else PumpWrote(p, ok);
            s.pumps[p].phase != Reading ==>
              && Enabled(s, l)
              && var s' := Apply(c, s, l);
                 && p in s'.pumps && s'.pumps[p] == s.pumps[p].(phase := Reading)
                 && s'.tasks == s.tasks && s'.log == s.log
                 && s'.sh.writer == if l.PumpWrote? && !ok && s.sh.writer == Some(s.pumps[p].phase.viewer) then None
                                    else s.sh.writer
  {
  }

  /** A published viewer whose transport closes gets nothing more. */
  lemma ClosedTransportsGetNothing(c: StreamCrypto, labels: seq<Label>, k: nat, v: Id)
    requires IsRun(c, labels) && k < |labels| && IsRun(c, labels[..k]) && labels[k] == TransportCloses(v)
    requires After(c, labels[..k]).sh.writer == Some(v)
    ensures v in After(c, labels[..k]).tasks && v in After(c, labels).tasks
    ensures After(c, labels).tasks[v].delivered == After(c, labels[..k]).tasks[v].delivered
  {
    hide Enabled, Apply;
    RelayTheorems.PrefixIsRun(c, labels, k + 1);
    var s, s' := After(c, labels[..k]), After(c, labels[..k + 1]);
    assert labels[..k + 1][..k] == labels[..k];
    assert s' == Apply(c, s, TransportCloses(v)) && Enabled(s, TransportCloses(v));
    TransportClosed(c, s, v);
    RelayTheorems.LiveDelivery(c, labels, k + 1, v);
  }

  lemma TransportClosed(c: StreamCrypto, s: State, v: Id)
    requires Enabled(s, TransportCloses(v))
    ensures var s' := Apply(c, s, TransportCloses(v));
            && v in s.tasks && v in s'.tasks && s'.tasks[v].closing && s'.tasks[v].delivered == s.tasks[v].delivered
            && s'.sh.writer == s.sh.writer && s'.log == s.log
  {
  }

  // The environment.

  /**
   What may happen at any time: callers arrive, armed timers fire, peers close, viewers leave, tasks are cancelled
   before their burst, and a live pump ends, or reads any chunk while it is reading.
   */
  lemma EnvironmentIsFree(c: StreamCrypto, s: State)
    ensures forall id, kind: Kind | id !in s.tasks && !kind.CloseTimer? :: Enabled(s, Arrive(id, kind))
    ensures forall id, timer | id !in s.tasks && timer in s.sh.timers :: Enabled(s, Fire(id, timer))
    ensures forall id | id in s.tasks && s.tasks[id].kind.Viewer? :: Enabled(s, TransportCloses(id))
    ensures forall id | At(s, id, Draining) || At(s, id, WaitPublish) || At(s, id, Attached) :: Enabled(s, Leave(id))
    ensures forall id | id in s.tasks && BeforeBurst(s.tasks[id].pc) :: Enabled(s, Abandon(id, None))
    ensures forall id | At(s, id, StartingLan) :: Enabled(s, Abandon(id, Some(NewClient(s))))
    ensures forall p | Alive(s, p) :: Enabled(s, PumpEnds(p))
    ensures forall p, raw | p in s.pumps && s.pumps[p].phase == Reading && 1 <= |raw| <= 65536 ::
              !s.pumps[p].cancelled ==> Enabled(s, PumpReads(p, raw))
  {
    hide NewClient;
  }

  predicate BeforeBurst(pc: Pc)
  {
    pc == Waiting || pc == FetchingKey || pc == StartingLan || pc == WaitKeyframe || pc == WaitSnapshot
  }

  // Transports.

  predicate IsClosing(pc: Pc)
  {
    pc == Closing || pc == FailClosing
  }

  /** A viewer that waits for its transport to be closed has closed it. */
  ghost predicate TransportInv(s: State)
  {
    forall t | t in s.tasks && IsClosing(s.tasks[t].pc) :: s.tasks[t].closing
  }

  /** How the task ``id`` may move: it closes its transport on the way, unless it is cancelled. */
  ghost predicate ClosesOnItsWay(s: State, s': State, id: Id, abandoned: bool)
  {
    && RelayEarlyClose.MovesOnly(s, s', id)
    && (id in s.tasks ==> s'.tasks[id].kind == s.tasks[id].kind && (s.tasks[id].closing ==> s'.tasks[id].closing))
    && (IsClosing(s'.tasks[id].pc) ==>
          s'.tasks[id].closing || (id in s.tasks && s'.tasks[id].pc == s.tasks[id].pc))
    && (id in s.tasks && s'.tasks[id].kind.Viewer? && s'.tasks[id].pc == Done ==>
          s.tasks[id].pc == Done || IsClosing(s.tasks[id].pc) || abandoned)
    && (id !in s.tasks ==> s'.tasks[id].pc == Waiting)
  }

  lemma TeardownCloses(s: State, id: Id)
    requires id in s.tasks
    ensures ClosesOnItsWay(s, BeginTeardown(s, id), id, false)
    ensures ClosesOnItsWay(s, ResetUpstream(s, id), id, false)
    ensures ClosesOnItsWay(s, EndTeardown(s, id), id, false)
  {
  }

  lemma EnterCloses(s: State, id: Id, ok: bool, timer: Id)
    requires At(s, id, Waiting)
    ensures ClosesOnItsWay(s, EnterLocked(s, id, ok, timer), id, false)
  {
    hide RelayBuffer.Snapshot, BeginTeardown, ResetUpstream, EndTeardown;
    if s.tasks[id].kind.CloseTimer? {
      TeardownCloses(s.(sh := s.sh.(closeHandle := None)), id);
    } else {
      TeardownCloses(s, id);
    }
  }

  lemma TeardownStepCloses(c: StreamCrypto, s: State, l: Label)
    requires Enabled(s, l) && RelayStream.TeardownLabel(l)
    ensures ClosesOnItsWay(s, Apply(c, s, l), l.id, false)
  {
    hide BeginTeardown, ResetUpstream, EndTeardown, CommitSpinUp, ClosesOnItsWay;
    TeardownCloses(s, l.id);
    match l
    case KeyFetched(id, ok) => StartCloses(s, id);
    case LanStarted(id, ok, session, timer) => CommitCloses(s, id, session, timer);
    case PumpAwaited(_) =>
    case LanClosed(id) =>
      var r := s.(clients := s.clients - {s.tasks[id].pc.lan});
      TeardownCloses(r, id);
      SameTasksClose(s, r, EndTeardown(r, id), id);
  }

  lemma SameTasksClose(s: State, r: State, s': State, id: Id)
    requires r.tasks == s.tasks && ClosesOnItsWay(r, s', id, false)
    ensures ClosesOnItsWay(s, s', id, false)
  {
  }

  lemma StartCloses(s: State, id: Id)
    requires id in s.tasks
    ensures ClosesOnItsWay(s, Goto(s, id, StartingLan), id, false)
  {
  }

  lemma CommitCloses(s: State, id: Id, session: Id, timer: Id)
    requires id in s.tasks && s.tasks[id].pc == StartingLan
    ensures ClosesOnItsWay(s, CommitSpinUp(s, id, session, timer), id, false)
  {
  }

  lemma OtherCloses(c: StreamCrypto, s: State, l: Label)
    requires Enabled(s, l) && !RelayStream.TeardownLabel(l) && !PumpLabel(l) && !l.Enter?
    ensures ClosesOnItsWay(s, Apply(c, s, l), l.id, l.Abandon?)
  {
    hide RelayBuffer.Snapshot;
  }

  lemma PumpLeavesTransports(c: StreamCrypto, s: State, l: Label)
    requires Enabled(s, l) && PumpLabel(l)
    ensures Apply(c, s, l).tasks.Keys == s.tasks.Keys
    ensures forall t | t in s.tasks :: SameEnd(s.tasks[t], Apply(c, s, l).tasks[t])
  {
    hide Increment, RelayBuffer.KeyframeComplete, RelayBuffer.Absorbed;
  }

  predicate SameEnd(t: Task, t': Task)
  {
    t'.kind == t.kind && t'.pc == t.pc && t'.closing == t.closing
  }

  /** A step that ends a viewer leaves its transport open only by cancelling it. */
  ghost predicate EndsClosed(s: State, s': State, l: Label)
  {
    forall t | t in s.tasks && t in s'.tasks && s.tasks[t].kind.Viewer?
               && s.tasks[t].pc != Done && s'.tasks[t].pc == Done ::
      s'.tasks[t].closing || (l.Abandon? && l.id == t)
  }

  lemma MoveEndsClosed(s: State, s': State, l: Label)
    requires TransportInv(s) && !PumpLabel(l) && ClosesOnItsWay(s, s', l.id, l.Abandon?)
    ensures TransportInv(s') && EndsClosed(s, s', l)
  {
  }

  lemma StepEndsClosed(c: StreamCrypto, s: State, l: Label)
    requires TransportInv(s) && Enabled(s, l)
    ensures TransportInv(Apply(c, s, l)) && EndsClosed(s, Apply(c, s, l), l)
  {
    hide ClosesOnItsWay, Enabled, Apply;
    if PumpLabel(l) {
      PumpLeavesTransports(c, s, l);
    } else {
      if l.Enter? {
        ViaEnter(c, s, l);
      } else if RelayStream.TeardownLabel(l) {
        TeardownStepCloses(c, s, l);
      } else {
        OtherCloses(c, s, l);
      }
      MoveEndsClosed(s, Apply(c, s, l), l);
    }
  }

  lemma ViaEnter(c: StreamCrypto, s: State, l: Label)
    requires Enabled(s, l) && l.Enter?
    ensures ClosesOnItsWay(s, Apply(c, s, l), l.id, false)
  {
    EnterCloses(s, l.id, l.ok, l.timer);
  }

  lemma {:induction false} RunKeepsTransports(c: StreamCrypto, labels: seq<Label>)
    requires IsRun(c, labels)
    ensures TransportInv(After(c, labels))
    decreases |labels|
  {
    if labels != [] {
      hide Enabled, Apply;
      RunKeepsTransports(c, labels[..|labels| - 1]);
      StepEndsClosed(c, After(c, labels[..|labels| - 1]), labels[|labels| - 1]);
    }
  }

  /** In every run a viewer comes to its end with its transport closed, unless it is cancelled before its burst. */
  lemma ViewersEndClosed(c: StreamCrypto, labels: seq<Label>, l: Label)
    requires IsRun(c, labels) && Enabled(After(c, labels), l)
    ensures EndsClosed(After(c, labels), Apply(c, After(c, labels), l), l)
    ensures TransportInv(After(c, labels))
  {
    RunKeepsTransports(c, labels);
    StepEndsClosed(c, After(c, labels), l);
  }
}
