/**
 The relay as a transition system (tcp_relay.py).  Every label is one stretch of code between two awaits, run by a
 viewer's handler, a prewarm call, the close timer, stop, or a pump task; the label carries what the environment chose.
 Any order of enabled labels is a run.
 */
module Relay {
  import opened ByteStrings
  import RelayBuffer
  import opened RelayShared
  import opened StreamSpec

  datatype Kind = Viewer | Prewarm(hold: real) | CloseTimer | Stopper

  /** Where a task is suspended. */
  datatype Pc =
    | Waiting              // for the lock, at the start
    | FetchingKey          // _get_aes_key, lock held
    | StartingLan          // lan.start, lock held
    | AwaitingPump(p: Id)  // the cancelled pump, lock held
    | ClosingLan(lan: Id)  // lan.close, lock held
    | FailClosing          // writer.wait_closed after a failed spin-up, lock held
    | WaitKeyframe
    | WaitSnapshot         // for the lock
    | Draining             // the initial burst
    | WaitPublish          // for the lock
    | Attached             // reading until the peer closes
    | WaitCleanup          // for the lock
    | Closing              // writer.wait_closed
    | Done

  /**
   What a viewer was given: the burst is log[from..at], taken in the session that starts at ``base``; after publication
   (at log length ``live``) it received log[live..upto].
   */
  datatype History = History(base: nat, from: nat, at: nat, published: bool, live: nat, upto: nat)

  datatype Task = Task(kind: Kind, pc: Pc, delivered: Bytes, history: Option<History>, closing: bool)

  datatype Phase = Created | Reading | Writing(viewer: Id) | Ended

  /** ``wire`` is everything this pump has read, which its decoder has been fed. */
  datatype Pump = Pump(phase: Phase, cancelled: bool, wire: Bytes)

  /**
   ``log`` is all plaintext ever pumped; the current session's part starts at ``base``.  ``clients`` are the LAN clients
   started and not closed yet; a session's client and pump share their name.
   */
  datatype State = State(
    sh: Shared,
    lock: Option<Id>,
    tasks: map<Id, Task>,
    pumps: map<Id, Pump>,
    log: Bytes,
    base: nat,
    clients: set<Id>)

  const START := State(INITIAL, None, map[], map[], [], 0, {})

  datatype Label =
    | Arrive(id: Id, kind: Kind)
    | Fire(id: Id, timer: Id)
    | Enter(id: Id, ok: bool, timer: Id)
    | KeyFetched(id: Id, ok: bool)
    | LanStarted(id: Id, ok: bool, session: Id, timer: Id)
    | PumpAwaited(id: Id)
    | LanClosed(id: Id)
    | FailClosed(id: Id)
    | KeyframeWaitOver(id: Id)
    | SnapshotTaken(id: Id)
    | BurstDrained(id: Id, ok: bool)
    | Publish(id: Id)
    | Leave(id: Id)
    | Cleanup(id: Id, timer: Id)
    | Closed(id: Id)
    | TransportCloses(id: Id)
    | Abandon(id: Id, started: Option<Id>)
    | PumpStarts(p: Id)
    | PumpReads(p: Id, raw: Bytes)
    | PumpWrote(p: Id, ok: bool)
    | PumpEnds(p: Id)

  predicate HoldsLock(pc: Pc)
  {
    pc.FetchingKey? || pc.StartingLan? || pc.AwaitingPump? || pc.ClosingLan? || pc.FailClosing?
  }

  predicate Alive(s: State, p: Id)
  {
    p in s.pumps && s.pumps[p].phase != Ended
  }

  /** _is_pump_alive. */
  predicate PumpAlive(s: State)
  {
    s.sh.pumpTask.Some? && Alive(s, s.sh.pumpTask.value)
  }

  predicate At(s: State, id: Id, pc: Pc)
  {
    id in s.tasks && s.tasks[id].pc == pc
  }

  /** A name for the LAN client of a new session. */
  predicate FreshClient(s: State, p: Id)
  {
    p !in s.pumps && p !in s.clients
  }

  predicate MayAbandon(pc: Pc)
  {
    pc == Waiting || pc == WaitKeyframe || pc == WaitSnapshot || pc == FetchingKey || pc == StartingLan
  }

  /** ``Abandon`` while connecting: the thread that connects goes on, and may still start its client. */
  predicate Enabled(s: State, l: Label)
  {
    match l
    case Arrive(id, kind) => id !in s.tasks && !kind.CloseTimer?
    case Fire(id, timer) => id !in s.tasks && timer in s.sh.timers
    case Enter(id, _, timer) => At(s, id, Waiting) && s.lock.None? && FreshTimer(s.sh, timer)
    case KeyFetched(id, _) => At(s, id, FetchingKey)
    case LanStarted(id, _, session, timer) =>
      At(s, id, StartingLan) && FreshClient(s, session) && FreshTimer(s.sh, timer)
    case PumpAwaited(id) => id in s.tasks && s.tasks[id].pc.AwaitingPump? && !Alive(s, s.tasks[id].pc.p)
    case LanClosed(id) => id in s.tasks && s.tasks[id].pc.ClosingLan?
    case FailClosed(id) => At(s, id, FailClosing)
    case KeyframeWaitOver(id) => At(s, id, WaitKeyframe)
    case SnapshotTaken(id) => At(s, id, WaitSnapshot) && s.lock.None?
    case BurstDrained(id, _) => At(s, id, Draining)
    case Publish(id) => At(s, id, WaitPublish) && s.lock.None?
    case Leave(id) => At(s, id, Draining) || At(s, id, WaitPublish) || At(s, id, Attached)
    case Cleanup(id, timer) => At(s, id, WaitCleanup) && s.lock.None? && FreshTimer(s.sh, timer)
    case Closed(id) => At(s, id, Closing)
    case TransportCloses(id) => id in s.tasks && s.tasks[id].kind.Viewer?
    case Abandon(id, started) =>
      && id in s.tasks && MayAbandon(s.tasks[id].pc)
      && (started.Some? ==> s.tasks[id].pc == StartingLan && FreshClient(s, started.value))
    case PumpStarts(p) => p in s.pumps && s.pumps[p].phase == Created && !s.pumps[p].cancelled
    case PumpReads(p, raw) => p in s.pumps && s.pumps[p].phase == Reading && !s.pumps[p].cancelled && IsChunk(raw)
    case PumpWrote(p, _) => p in s.pumps && s.pumps[p].phase.Writing? && !s.pumps[p].cancelled
    case PumpEnds(p) => Alive(s, p)
  }

  function WithTask(s: State, id: Id, t: Task): State
  {
    s.(tasks := s.tasks[id := t])
  }

  function Goto(s: State, id: Id, pc: Pc): State
    requires id in s.tasks
  {
    WithTask(s, id, s.tasks[id].(pc := pc))
  }

  function WithPump(s: State, p: Id, pump: Pump): State
  {
    s.(pumps := s.pumps[p := pump])
  }

  // _teardown_upstream, in its three stretches.

  function BeginTeardown(s: State, id: Id): State
    requires id in s.tasks
  {
    var r := s.(sh := ForgetPump(s.sh), lock := Some(id));
    if PumpAlive(s) then
      var p := s.sh.pumpTask.value;
      Goto(WithPump(r, p, s.pumps[p].(cancelled := true)), id, AwaitingPump(p))
    else ResetUpstream(r, id)
  }

  function ResetUpstream(s: State, id: Id): State
    requires id in s.tasks
  {
    var r := s.(sh := ResetSession(s.sh), base := |s.log|);
    if s.sh.lan.Some? then Goto(r, id, ClosingLan(s.sh.lan.value)) else EndTeardown(r, id)
  }

  function EndTeardown(s: State, id: Id): State
    requires id in s.tasks
  {
    if s.tasks[id].kind.Viewer? then WithTask(s, id, s.tasks[id].(pc := FailClosing, closing := true))
    else Goto(s.(lock := None), id, Done)
  }

  /** _spin_up_upstream up to its first await; ``ok`` is false when the host or the related device is unknown. */
  function BeginSpinUp(s: State, id: Id, ok: bool): State
    requires id in s.tasks
  {
    if ok then Goto(s.(lock := Some(id)), id, FetchingKey) else BeginTeardown(s, id)
  }

  function WithBurst(s: State, id: Id, whenEmpty: Pc, burst: Bytes): State
    requires id in s.tasks
  {
    var n := |s.log|;
    var from := if |burst| <= n then n - |burst| else 0;
    WithTask(s, id, s.tasks[id].(
      pc := if burst == [] then whenEmpty else Draining,
      delivered := burst,
      history := Some(History(s.base, from, n, false, n, n))))
  }

  /** Hand a viewer the snapshot, which is written in the same stretch unless it is empty. */
  function GiveBurst(s: State, id: Id, whenEmpty: Pc): State
    requires id in s.tasks
  {
    WithBurst(s, id, whenEmpty, RelayBuffer.Snapshot(s.sh.buffer))
  }

  function EnterLocked(s: State, id: Id, ok: bool, timer: Id): State
    requires id in s.tasks
  {
    match s.tasks[id].kind
    case Viewer =>
      if PumpAlive(s) then GiveBurst(s.(sh := CancelClose(s.sh)), id, WaitKeyframe) else BeginSpinUp(s, id, ok)
    case Prewarm(hold) =>
      if PumpAlive(s) then Goto(s.(sh := RescheduleClose(s.sh, hold, timer)), id, Done) else BeginSpinUp(s, id, ok)
    case CloseTimer =>
      var r := s.(sh := s.sh.(closeHandle := None));
      if r.sh.writer.Some? || !PumpAlive(r) then Goto(r, id, Done) else BeginTeardown(r, id)
    case Stopper => BeginTeardown(s, id)
  }

  function CommitSpinUp(s: State, id: Id, session: Id, timer: Id): State
    requires id in s.tasks
  {
    var sh := OpenSession(s.sh, session);
    var r := WithPump(s, session, Pump(Created, false, [])).(
      base := |s.log|, lock := None, clients := s.clients + {session});
    match s.tasks[id].kind
    case Prewarm(hold) => Goto(r.(sh := RescheduleClose(sh, hold, timer)), id, Done)
    case _ => Goto(r.(sh := CancelClose(sh)), id, WaitKeyframe)
  }

  /** The live chunk goes to the published viewer unless its transport is closing. */
  function Forward(s: State, plain: Bytes): map<Id, Task>
  {
    if Receives(s) then
      var w := s.sh.writer.value;
      var t := s.tasks[w];
      s.tasks[w := t.(delivered := t.delivered + plain,
                      history := Some(t.history.value.(upto := |s.log| + |plain|)))]
    else s.tasks
  }

  predicate Receives(s: State)
  {
    && s.sh.writer.Some? && s.sh.writer.value in s.tasks
    && !s.tasks[s.sh.writer.value].closing && s.tasks[s.sh.writer.value].history.Some?
  }

  /** The stretch from extending the buffer to the writer's drain, for a non-empty chunk. */
  function AbsorbAndForward(s: State, p: Id, fed: Pump, plain: Bytes): State
  {
    var phase := if Receives(s) then Writing(s.sh.writer.value) else Reading;
    WithPump(s, p, fed.(phase := phase)).(
      sh := AbsorbChunk(s.sh, plain),
      tasks := Forward(s, plain),
      log := s.log + plain)
  }

  function PumpStep(c: StreamCrypto, s: State, p: Id, raw: Bytes): State
    requires p in s.pumps
  {
    var pump := s.pumps[p];
    var plain := Increment(c, pump.wire, raw);
    var fed := pump.(wire := pump.wire + raw);
    if plain == [] then WithPump(s, p, fed) else AbsorbAndForward(s, p, fed, plain)
  }

  function Apply(c: StreamCrypto, s: State, l: Label): State
    requires Enabled(s, l)
  {
    match l
    case Arrive(id, kind) => WithTask(s, id, Task(kind, Waiting, [], None, false))
    case Fire(id, timer) =>
      WithTask(s.(sh := s.sh.(timers := s.sh.timers - {timer})), id, Task(CloseTimer, Waiting, [], None, false))
    case Enter(id, ok, timer) => EnterLocked(s, id, ok, timer)
    case KeyFetched(id, ok) => if ok then Goto(s, id, StartingLan) else BeginTeardown(s, id)
    case LanStarted(id, ok, session, timer) => if ok then CommitSpinUp(s, id, session, timer) else BeginTeardown(s, id)
    case PumpAwaited(id) => ResetUpstream(s, id)
    case LanClosed(id) => EndTeardown(s.(clients := s.clients - {s.tasks[id].pc.lan}), id)
    case FailClosed(id) => Goto(s.(lock := None), id, Done)
    case KeyframeWaitOver(id) => Goto(s, id, WaitSnapshot)
    case SnapshotTaken(id) => GiveBurst(s, id, WaitPublish)
    case BurstDrained(id, ok) => Goto(s, id, if ok then WaitPublish else WaitCleanup)
    case Publish(id) =>
      var t := s.tasks[id];
      var h := match t.history
               case None => None
               case Some(h) => Some(h.(published := true, live := |s.log|, upto := |s.log|));
      WithTask(s.(sh := s.sh.(writer := Some(id))), id, t.(pc := Attached, history := h))
    case Leave(id) => Goto(s, id, WaitCleanup)
    case Cleanup(id, timer) =>
      WithTask(s.(sh := DetachViewer(s.sh, id, timer)), id, s.tasks[id].(pc := Closing, closing := true))
    case Closed(id) => Goto(s, id, Done)
    case TransportCloses(id) => WithTask(s, id, s.tasks[id].(closing := true))
    case Abandon(id, started) =>
      var r := s.(clients := s.clients + (if started.Some? then {started.value} else {}));
      Goto(if HoldsLock(s.tasks[id].pc) then r.(lock := None) else r, id, Done)
    case PumpStarts(p) => WithPump(s, p, s.pumps[p].(phase := if s.sh.lan.None? then Ended else Reading))
    case PumpReads(p, raw) => PumpStep(c, s, p, raw)
    case PumpWrote(p, ok) =>
      var r := WithPump(s, p, s.pumps[p].(phase := Reading));
      if ok then r else r.(sh := DropWriter(s.sh, s.pumps[p].phase.viewer))
    case PumpEnds(p) => WithPump(s, p, s.pumps[p].(phase := Ended))
  }

  // Runs.

  predicate IsRun(c: StreamCrypto, labels: seq<Label>)
    decreases |labels|, 0
  {
    labels == [] ||
    (IsRun(c, labels[..|labels| - 1]) && Enabled(After(c, labels[..|labels| - 1]), labels[|labels| - 1]))
  }

  function After(c: StreamCrypto, labels: seq<Label>): State
    requires IsRun(c, labels)
    decreases |labels|, 1
  {
    if labels == [] then START else Apply(c, After(c, labels[..|labels| - 1]), labels[|labels| - 1])
  }
}
