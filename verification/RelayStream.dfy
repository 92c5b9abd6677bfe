/** What every step of the relay keeps about bytes: the session log, its cached buffer, and what viewers were given. */
module RelayStream {
  import opened ByteStrings
  import Markers
  import opened KeyframeGate
  import opened RelayBuffer
  import opened RelayShared
  import opened StreamSpec
  import opened Relay
  import opened RelayInvariants

  /** The current session's plaintext. */
  function Session(s: State): Bytes
    requires s.base <= |s.log|
  {
    s.log[s.base..]
  }

  /** The buffer caches the session log, and the live pump's decoder has produced exactly that log. */
  ghost predicate LogInv(c: StreamCrypto, s: State)
  {
    && s.base <= |s.log|
    && IsCacheOf(s.sh.buffer, Session(s))
    && Synced(Session(s))
    && (PumpAlive(s) ==> Session(s) == Reference(c, s.pumps[s.sh.pumpTask.value].wire))
  }

  predicate Ordered(h: History, n: nat)
  {
    h.base <= h.from <= h.at <= h.live <= h.upto <= n && (!h.published ==> h.live == h.upto)
  }

  /** After an empty burst the next plaintext pumped is the start of a session's output. */
  predicate EmptyBurstOk(h: History, log: Bytes, base: nat)
    requires Ordered(h, |log|)
  {
    && (h.at == |log| ==> base == h.at)
    && (h.at < |log| ==> IsSyncStart(log[h.at..]))
    && (h.at == h.live < h.upto ==> IsSyncStart(log[h.at..h.upto]))
  }

  /** What was delivered, and where it lies in the log. */
  predicate HistoryOk(h: History, delivered: Bytes, log: Bytes, base: nat)
  {
    && Ordered(h, |log|)
    && delivered == log[h.from..h.at] + log[h.live..h.upto]
    && (h.from == h.at ==> EmptyBurstOk(h, log, base))
  }

  /** The burst is the snapshot of everything its session had produced. */
  predicate BurstOk(h: History, log: Bytes)
  {
    && h.base <= h.from <= h.at <= |log|
    && log[h.from..h.at] == Snapshot(log[h.base..h.at])
    && (h.from < h.at ==> StartsGroup(log[h.from..h.at]))
  }

  predicate TaskOk(t: Task, log: Bytes, base: nat)
  {
    match t.history
    case None => t.delivered == [] && t.pc != Draining && t.pc != WaitPublish && !Publishes(t)
    case Some(h) =>
      && HistoryOk(h, t.delivered, log, base)
      && (t.pc == Draining || t.pc == WaitPublish ==> !h.published)
  }

  /** The published viewer has everything pumped since its publication, unless its transport is closing. */
  predicate LiveOk(t: Task, n: nat)
  {
    t.history.Some? && t.history.value.published && (t.closing || t.history.value.upto == n)
  }

  ghost predicate ViewInv(s: State)
  {
    && s.base <= |s.log|
    && (forall t | t in s.tasks :: TaskOk(s.tasks[t], s.log, s.base))
    && (s.sh.writer.Some? ==> s.sh.writer.value in s.tasks && LiveOk(s.tasks[s.sh.writer.value], |s.log|))
  }

  ghost predicate BurstInv(s: State)
  {
    forall t | t in s.tasks && s.tasks[t].history.Some? :: BurstOk(s.tasks[t].history.value, s.log)
  }

  // Histories.

  lemma SliceKept(log: Bytes, x: Bytes, lo: nat, hi: nat)
    requires lo <= hi <= |log|
    ensures (log + x)[lo..hi] == log[lo..hi]
    ensures (log + x)[lo..|log| + |x|] == log[lo..] + x
  {
  }

  lemma HistoryGrows(h: History, delivered: Bytes, log: Bytes, base: nat, x: Bytes)
    requires HistoryOk(h, delivered, log, base) && base <= |log| && x != []
    requires base == |log| ==> IsSyncStart(x)
    ensures HistoryOk(h, delivered, log + x, base)
  {
    var whole := log + x;
    SliceKept(log, x, h.from, h.at);
    SliceKept(log, x, h.live, h.upto);
    SliceKept(log, x, h.at, h.upto);
    if h.from == h.at {
      assert whole[h.at..] == log[h.at..] + x;
      Markers.MarkersStay(log[h.at..], x, 0);
      assert h.at == |log| ==> whole[h.at..] == x;
    }
  }

  lemma HistoryFed(h: History, delivered: Bytes, log: Bytes, base: nat, x: Bytes)
    requires HistoryOk(h, delivered, log, base) && base <= |log| && x != []
    requires base == |log| ==> IsSyncStart(x)
    requires h.published && h.upto == |log|
    ensures HistoryOk(h.(upto := |log| + |x|), delivered + x, log + x, base)
  {
    var whole, n := log + x, |log|;
    HistoryGrows(h, delivered, log, base, x);
    SliceKept(log, x, h.from, h.at);
    SliceKept(log, x, h.live, n);
    assert log[h.live..n] == log[h.live..];
    assert delivered + x == log[h.from..h.at] + (log[h.live..n] + x);
    assert whole[h.at..n + |x|] == whole[h.at..];
  }

  lemma HistoryRebased(h: History, delivered: Bytes, log: Bytes, base: nat)
    requires HistoryOk(h, delivered, log, base)
    ensures HistoryOk(h, delivered, log, |log|)
  {
  }

  lemma HistoryPublished(h: History, delivered: Bytes, log: Bytes, base: nat)
    requires HistoryOk(h, delivered, log, base) && !h.published
    ensures HistoryOk(h.(published := true, live := |log|, upto := |log|), delivered, log, base)
  {
    assert log[h.live..h.upto] == [] == log[|log|..|log|];
  }

  // Steps.

  /** Nothing was pumped or handed out; at most the session was closed and the writer dropped. */
  ghost predicate Quiet(s: State, s': State)
  {
    && s'.log == s.log && (s'.base == s.base || s'.base == |s.log|)
    && (s'.sh.writer == s.sh.writer || s'.sh.writer.None?)
    && s.tasks.Keys <= s'.tasks.Keys
    && (forall t | t in s'.tasks && t !in s.tasks ::
          s'.tasks[t].history.None? && s'.tasks[t].delivered == [] && s'.tasks[t].pc == Waiting)
    && (forall t | t in s.tasks :: QuietTask(s.tasks[t], s'.tasks[t]))
  }

  predicate QuietTask(t: Task, t': Task)
  {
    && t'.history == t.history && t'.delivered == t.delivered && (t.closing ==> t'.closing)
    && (t'.pc == Draining ==> t.pc == Draining)
    && (t'.pc == WaitPublish ==> t.pc == Draining || t.pc == WaitPublish)
    && (Publishes(t') ==> Publishes(t) || t.pc == Draining || t.pc == WaitPublish)
  }

  lemma QuietKeepsViews(s: State, s': State)
    requires ViewInv(s) && BurstInv(s) && Quiet(s, s')
    ensures ViewInv(s') && BurstInv(s')
  {
    forall t | t in s'.tasks ensures TaskOk(s'.tasks[t], s'.log, s'.base) {
      if t in s.tasks && s.tasks[t].history.Some? {
        HistoryRebased(s.tasks[t].history.value, s.tasks[t].delivered, s.log, s.base);
      }
    }
  }

  /** ``burst`` is what a viewer entering in state ``s`` has to get. */
  predicate BurstFor(s: State, burst: Bytes)
  {
    var n := |s.log|;
    && s.base <= n && |burst| <= n - s.base
    && s.log[n - |burst|..n] == burst == Snapshot(s.log[s.base..n])
    && (burst == [] <==> s.base == n)
    && (burst != [] ==> StartsGroup(burst))
  }

  lemma BurstSlices(s: State, burst: Bytes, x: Bytes)
    requires s.base <= |s.log| && x == s.log[s.base..]
    requires burst == Snapshot(x) && |burst| <= |x| && burst == x[|x| - |burst|..]
    requires (burst == [] <==> x == []) && (burst != [] ==> StartsGroup(burst))
    ensures BurstFor(s, burst)
  {
    hide Snapshot, StartsGroup;
    WholeTail(s.log, s.base);
    WholeTail(s.log, |s.log| - |burst|);
    TailOfTail(s.log, s.base, |x| - |burst|);
  }

  /** The burst is the snapshot of the whole session log, although the buffer may have been trimmed. */
  lemma BurstOfSession(c: StreamCrypto, s: State)
    requires LogInv(c, s)
    ensures BurstFor(s, Snapshot(s.sh.buffer))
  {
    hide Snapshot, StartsGroup, Synced, IsCacheOf, Reference;
    SyncedSnapshot(s.sh.buffer, Session(s));
    BurstSlices(s, Snapshot(s.sh.buffer), Session(s));
  }

  lemma GiveBurstKeepsViews(c: StreamCrypto, s: State, id: Id, whenEmpty: Pc)
    requires ViewInv(s) && BurstInv(s) && LogInv(c, s) && id in s.tasks && s.sh.writer != Some(id)
    requires whenEmpty == WaitKeyframe || whenEmpty == WaitPublish
    ensures ViewInv(GiveBurst(s, id, whenEmpty)) && BurstInv(GiveBurst(s, id, whenEmpty))
  {
    BurstOfSession(c, s);
    BurstGiven(s, id, whenEmpty, Snapshot(s.sh.buffer));
  }

  lemma BurstGiven(s: State, id: Id, whenEmpty: Pc, burst: Bytes)
    requires ViewInv(s) && BurstInv(s) && id in s.tasks && s.sh.writer != Some(id) && BurstFor(s, burst)
    requires whenEmpty == WaitKeyframe || whenEmpty == WaitPublish
    ensures ViewInv(WithBurst(s, id, whenEmpty, burst)) && BurstInv(WithBurst(s, id, whenEmpty, burst))
  {
    hide StartsGroup, Snapshot, IsSyncStart;
    var s' := WithBurst(s, id, whenEmpty, burst);
    var t, n := s'.tasks[id], |s.log|;
    assert s'.tasks == s.tasks[id := t];
    assert t.history.value == History(s.base, n - |burst|, n, false, n, n) && t.delivered == burst;
    assert s.log[n..n] == [];
    assert TaskOk(t, s.log, s.base);
    assert BurstOk(t.history.value, s.log);
  }

  lemma PublishKeepsViews(s: State, id: Id, t: Task, h: History)
    requires ViewInv(s) && At(s, id, WaitPublish) && s.tasks[id].history == Some(h)
    requires t == s.tasks[id].(pc := Attached, history := Some(h.(published := true, live := |s.log|, upto := |s.log|)))
    requires BurstInv(s)
    ensures ViewInv(WithTask(s.(sh := s.sh.(writer := Some(id))), id, t))
    ensures BurstInv(WithTask(s.(sh := s.sh.(writer := Some(id))), id, t))
  {
    HistoryPublished(h, t.delivered, s.log, s.base);
    assert TaskOk(t, s.log, s.base);
  }

  lemma FedTaskOk(t: Task, log: Bytes, base: nat, plain: Bytes)
    requires TaskOk(t, log, base) && base <= |log| && plain != [] && (base == |log| ==> IsSyncStart(plain))
    ensures TaskOk(t, log + plain, base)
    ensures LiveOk(t, |log|) && !t.closing ==>
              TaskOk(t.(delivered := t.delivered + plain, history := Some(t.history.value.(upto := |log| + |plain|))),
                     log + plain, base)
  {
    if t.history.Some? {
      HistoryGrows(t.history.value, t.delivered, log, base, plain);
      if LiveOk(t, |log|) && !t.closing {
        HistoryFed(t.history.value, t.delivered, log, base, plain);
      }
    }
  }

  lemma ForwardKeepsViews(s: State, s': State, plain: Bytes)
    requires ViewInv(s) && plain != [] && (s.base == |s.log| ==> IsSyncStart(plain))
    requires s'.log == s.log + plain && s'.base == s.base && s'.sh.writer == s.sh.writer
    requires s'.tasks == Forward(s, plain)
    ensures ViewInv(s')
  {
    hide HistoryOk, EmptyBurstOk, IsSyncStart, Ordered;
    forall t | t in s'.tasks ensures TaskOk(s'.tasks[t], s'.log, s'.base) {
      FedTaskOk(s.tasks[t], s.log, s.base, plain);
    }
  }

  lemma BurstKept(h: History, log: Bytes, x: Bytes)
    requires BurstOk(h, log)
    ensures BurstOk(h, log + x)
  {
    SliceKept(log, x, h.from, h.at);
    SliceKept(log, x, h.base, h.at);
  }

  lemma ForwardKeepsBursts(s: State, s': State, plain: Bytes)
    requires BurstInv(s) && s'.log == s.log + plain && s'.tasks == Forward(s, plain)
    ensures BurstInv(s')
  {
    forall t | t in s'.tasks && s'.tasks[t].history.Some? ensures BurstOk(s'.tasks[t].history.value, s'.log) {
      BurstKept(s.tasks[t].history.value, s.log, plain);
    }
  }

  /** The reading pump is the live one, so what it adds continues the session's output. */
  lemma ReadingPumpIsCurrent(s: State, p: Id, raw: Bytes)
    requires ControlInv(s) && Enabled(s, PumpReads(p, raw))
    ensures PumpAlive(s) && s.sh.pumpTask == Some(p)
  {
    assert Alive(s, p);
    assert forall t | t in s.tasks :: PumpAllows(s, s.tasks[t].pc);
  }

  lemma SyncedGrows(x: Bytes, plain: Bytes)
    requires Synced(x) && x != []
    ensures Synced(x + plain)
  {
    Markers.MarkersStay(x, plain, 0);
    LastKeyframeGrows(x, plain);
  }

  lemma ReadContinues(c: StreamCrypto, s: State, p: Id, raw: Bytes, plain: Bytes)
    requires LogInv(c, s) && PumpAlive(s) && s.sh.pumpTask == Some(p)
    requires plain == Increment(c, s.pumps[p].wire, raw)
    ensures Session(s) + plain == Reference(c, s.pumps[p].wire + raw)
    ensures plain != [] ==> Synced(Session(s) + plain)
    ensures plain != [] && s.base == |s.log| ==> IsSyncStart(plain)
  {
    hide Increment, Reference, IsCacheOf, IsSyncStart, HasKeyframe;
    ReferenceExtends(c, s.pumps[p].wire, raw);
    var x := Session(s);
    if plain != [] {
      if x == [] {
        FirstIncrementSynced(c, s.pumps[p].wire, raw);
        assert x + plain == plain;
      } else {
        SyncedGrows(x, plain);
      }
    }
  }

  lemma AbsorbedFields(s: State, p: Id, fed: Pump, plain: Bytes)
    ensures var s' := AbsorbAndForward(s, p, fed, plain);
            && s'.log == s.log + plain && s'.base == s.base && s'.sh.buffer == Absorbed(s.sh.buffer, plain)
            && s'.sh.pumpTask == s.sh.pumpTask && s'.sh.writer == s.sh.writer && s'.tasks == Forward(s, plain)
            && p in s'.pumps && s'.pumps[p].wire == fed.wire
  {
  }

  lemma LogFromFields(c: StreamCrypto, s: State, s': State, p: Id, plain: Bytes)
    requires s.base <= |s.log| && s'.log == s.log + plain && s'.base == s.base
    requires IsCacheOf(s'.sh.buffer, Session(s) + plain) && Synced(Session(s) + plain)
    requires s'.sh.pumpTask == Some(p) && p in s'.pumps && Session(s) + plain == Reference(c, s'.pumps[p].wire)
    ensures LogInv(c, s')
  {
    hide IsCacheOf, Synced, Reference;
    assert Session(s') == Session(s) + plain;
  }

  lemma AbsorbKeepsLog(c: StreamCrypto, s: State, p: Id, fed: Pump, plain: Bytes)
    requires LogInv(c, s) && s.sh.pumpTask == Some(p)
    requires Session(s) + plain == Reference(c, fed.wire) && Synced(Session(s) + plain)
    ensures LogInv(c, AbsorbAndForward(s, p, fed, plain))
  {
    AbsorbedFields(s, p, fed, plain);
    CacheAbsorbed(s.sh.buffer, Session(s), plain);
    LogFromFields(c, s, AbsorbAndForward(s, p, fed, plain), p, plain);
  }

  lemma PumpStepKeepsStream(c: StreamCrypto, s: State, p: Id, raw: Bytes)
    requires ControlInv(s) && LogInv(c, s) && ViewInv(s) && BurstInv(s) && Enabled(s, PumpReads(p, raw))
    ensures LogInv(c, PumpStep(c, s, p, raw)) && ViewInv(PumpStep(c, s, p, raw)) && BurstInv(PumpStep(c, s, p, raw))
  {
    var plain := Increment(c, s.pumps[p].wire, raw);
    var fed := s.pumps[p].(wire := s.pumps[p].wire + raw);
    ReadingPumpIsCurrent(s, p, raw);
    ReadContinues(c, s, p, raw, plain);
    if plain == [] {
      SilentReadKeeps(c, s, p, fed);
    } else {
      AbsorbKeepsLog(c, s, p, fed, plain);
      AbsorbedFields(s, p, fed, plain);
      ForwardKeepsViews(s, AbsorbAndForward(s, p, fed, plain), plain);
      ForwardKeepsBursts(s, AbsorbAndForward(s, p, fed, plain), plain);
    }
  }

  lemma SilentReadKeeps(c: StreamCrypto, s: State, p: Id, fed: Pump)
    requires LogInv(c, s) && ViewInv(s) && BurstInv(s) && PumpAlive(s) && s.sh.pumpTask == Some(p)
    requires Session(s) + [] == Reference(c, fed.wire)
    ensures LogInv(c, WithPump(s, p, fed)) && ViewInv(WithPump(s, p, fed)) && BurstInv(WithPump(s, p, fed))
  {
    var s' := WithPump(s, p, fed);
    assert Session(s) + [] == Session(s) == Session(s');
    assert s'.pumps[p].wire == fed.wire;
  }

  /** The session goes on unchanged, or an empty one takes its place. */
  ghost predicate SameSession(s: State, s': State)
  {
    && s'.log == s.log
    && (|| (s'.base == s.base && s'.sh.buffer == s.sh.buffer)
        || (s'.base == |s.log| && s'.sh.buffer == []))
    && (PumpAlive(s') ==>
          || (s'.base == |s.log| && s'.pumps[s'.sh.pumpTask.value].wire == [])
          || (s'.base == s.base && PumpAlive(s) && s'.sh.pumpTask == s.sh.pumpTask
              && s'.pumps[s'.sh.pumpTask.value].wire == s.pumps[s.sh.pumpTask.value].wire))
  }

  lemma SameSessionKeepsLog(c: StreamCrypto, s: State, s': State)
    requires LogInv(c, s) && SameSession(s, s')
    ensures LogInv(c, s')
  {
    NothingDecodedYet(c);
    if s'.base == |s.log| && s'.sh.buffer == [] {
      assert s.log[|s.log|..] == [];
    }
  }

  // Quiet steps, label by label.

  lemma OneTaskQuiet(s: State, s': State, id: Id)
    requires id in s'.tasks && s'.tasks == s.tasks[id := s'.tasks[id]]
    requires s'.log == s.log && (s'.base == s.base || s'.base == |s.log|)
    requires s'.sh.writer == s.sh.writer || s'.sh.writer.None?
    requires if id in s.tasks then QuietTask(s.tasks[id], s'.tasks[id])
             else s'.tasks[id].history.None? && s'.tasks[id].delivered == [] && s'.tasks[id].pc == Waiting
    ensures Quiet(s, s')
  {
  }

  lemma EndTeardownQuiet(s: State, id: Id)
    requires id in s.tasks
    ensures Quiet(s, EndTeardown(s, id))
  {
  }

  lemma EndTeardownSame(s: State, id: Id)
    requires id in s.tasks
    ensures SameSession(s, EndTeardown(s, id))
  {
  }

  lemma ResetQuiet(s: State, id: Id)
    requires id in s.tasks
    ensures Quiet(s, ResetUpstream(s, id))
  {
  }

  lemma ResetSame(s: State, id: Id)
    requires id in s.tasks && !PumpAlive(s)
    ensures SameSession(s, ResetUpstream(s, id))
  {
  }

  lemma TeardownQuiet(s: State, id: Id)
    requires id in s.tasks
    ensures Quiet(s, BeginTeardown(s, id))
  {
  }

  lemma TeardownSame(s: State, id: Id)
    requires id in s.tasks
    ensures SameSession(s, BeginTeardown(s, id))
  {
  }

  lemma CommitQuiet(s: State, id: Id, session: Id, timer: Id)
    requires id in s.tasks && session !in s.pumps
    ensures Quiet(s, CommitSpinUp(s, id, session, timer))
  {
  }

  lemma CommitSame(s: State, id: Id, session: Id, timer: Id)
    requires id in s.tasks && session !in s.pumps
    ensures SameSession(s, CommitSpinUp(s, id, session, timer))
  {
    var s' := CommitSpinUp(s, id, session, timer);
    assert s'.pumps[session].wire == [] && s'.sh.pumpTask == Some(session) && s'.sh.buffer == [];
  }

  lemma TimerEnterIsQuiet(s: State, id: Id, ok: bool, timer: Id)
    requires At(s, id, Waiting) && s.tasks[id].kind.CloseTimer?
    ensures Quiet(s, EnterLocked(s, id, ok, timer)) && SameSession(s, EnterLocked(s, id, ok, timer))
  {
    var r := s.(sh := s.sh.(closeHandle := None));
    TeardownQuiet(r, id);
    TeardownSame(r, id);
    var s' := EnterLocked(s, id, ok, timer);
    if r.sh.writer.Some? || !PumpAlive(r) {
      OneTaskQuiet(s, s', id);
    } else {
      assert s' == BeginTeardown(r, id);
      assert PumpAlive(r) == PumpAlive(s);
    }
  }

  lemma SpinUpIsQuiet(s: State, id: Id, ok: bool)
    requires At(s, id, Waiting)
    ensures Quiet(s, BeginSpinUp(s, id, ok)) && SameSession(s, BeginSpinUp(s, id, ok))
  {
    if ok {
      OneTaskQuiet(s, BeginSpinUp(s, id, ok), id);
    } else {
      TeardownQuiet(s, id);
      TeardownSame(s, id);
    }
  }

  lemma PrewarmEnterIsQuiet(s: State, id: Id, ok: bool, timer: Id)
    requires At(s, id, Waiting) && s.tasks[id].kind.Prewarm?
    ensures Quiet(s, EnterLocked(s, id, ok, timer)) && SameSession(s, EnterLocked(s, id, ok, timer))
  {
    hide BeginSpinUp, BeginTeardown;
    if PumpAlive(s) {
      OneTaskQuiet(s, EnterLocked(s, id, ok, timer), id);
    } else {
      SpinUpIsQuiet(s, id, ok);
    }
  }

  /** A waiting task that gets the lock, unless it is a viewer that finds the session warm. */
  lemma EnterIsQuiet(s: State, id: Id, ok: bool, timer: Id)
    requires At(s, id, Waiting) && (s.tasks[id].kind.Viewer? ==> !PumpAlive(s))
    ensures Quiet(s, EnterLocked(s, id, ok, timer)) && SameSession(s, EnterLocked(s, id, ok, timer))
  {
    match s.tasks[id].kind
    case Viewer => SpinUpIsQuiet(s, id, ok);
    case Prewarm(_) => PrewarmEnterIsQuiet(s, id, ok, timer);
    case CloseTimer => TimerEnterIsQuiet(s, id, ok, timer);
    case Stopper =>
      TeardownQuiet(s, id);
      TeardownSame(s, id);
  }

  lemma KeyFetchedQuiet(s: State, id: Id)
    requires At(s, id, FetchingKey)
    ensures Quiet(s, Goto(s, id, StartingLan)) && SameSession(s, Goto(s, id, StartingLan))
  {
    OneTaskQuiet(s, Goto(s, id, StartingLan), id);
  }

  lemma LanClosedQuiet(c: StreamCrypto, s: State, id: Id)
    requires Enabled(s, LanClosed(id))
    ensures Quiet(s, Apply(c, s, LanClosed(id))) && SameSession(s, Apply(c, s, LanClosed(id)))
  {
    var r := s.(clients := s.clients - {s.tasks[id].pc.lan});
    EndTeardownQuiet(r, id);
    EndTeardownSame(r, id);
  }

  predicate TeardownLabel(l: Label)
  {
    l.KeyFetched? || l.LanStarted? || l.PumpAwaited? || l.LanClosed?
  }

  lemma TeardownStepIsQuiet(c: StreamCrypto, s: State, l: Label)
    requires ControlInv(s) && Enabled(s, l) && TeardownLabel(l)
    ensures Quiet(s, Apply(c, s, l)) && SameSession(s, Apply(c, s, l))
  {
    hide Quiet, SameSession;
    match l
    case KeyFetched(id, ok) =>
      KeyFetchedQuiet(s, id);
      TeardownQuiet(s, id);
      TeardownSame(s, id);
    case LanStarted(id, ok, session, timer) =>
      TeardownQuiet(s, id);
      TeardownSame(s, id);
      CommitQuiet(s, id, session, timer);
      CommitSame(s, id, session, timer);
    case PumpAwaited(id) =>
      assert PumpAllows(s, s.tasks[id].pc);
      ResetQuiet(s, id);
      ResetSame(s, id);
    case LanClosed(id) => LanClosedQuiet(c, s, id);
  }

  lemma TaskStepIsQuiet(c: StreamCrypto, s: State, l: Label)
    requires ControlInv(s) && Enabled(s, l) && !TeardownLabel(l) && !PumpLabel(l)
    requires !l.SnapshotTaken? && !l.Publish? && !l.Enter?
    ensures Quiet(s, Apply(c, s, l))
  {
    hide Quiet;
    OneTaskQuiet(s, Apply(c, s, l), l.id);
  }

  lemma OtherStepSameSession(c: StreamCrypto, s: State, l: Label)
    requires ControlInv(s) && Enabled(s, l) && !TeardownLabel(l)
    requires !l.PumpReads? && !l.SnapshotTaken? && !l.Publish? && !l.Enter?
    ensures SameSession(s, Apply(c, s, l))
  {
    hide Synced, Snapshot, Reference, ControlInv;
  }

  lemma PumpStepIsQuiet(c: StreamCrypto, s: State, l: Label)
    requires Enabled(s, l) && PumpLabel(l) && !l.PumpReads?
    ensures Quiet(s, Apply(c, s, l))
  {
  }

  // All of it together.

  ghost predicate StreamInv(c: StreamCrypto, s: State)
  {
    LogInv(c, s) && ViewInv(s) && BurstInv(s)
  }

  lemma QuietKeepsStream(c: StreamCrypto, s: State, s': State)
    requires StreamInv(c, s) && Quiet(s, s') && SameSession(s, s')
    ensures StreamInv(c, s')
  {
    QuietKeepsViews(s, s');
    SameSessionKeepsLog(c, s, s');
  }

  lemma GiveBurstKeepsStream(c: StreamCrypto, s: State, id: Id, whenEmpty: Pc)
    requires StreamInv(c, s) && id in s.tasks && s.sh.writer != Some(id)
    requires whenEmpty == WaitKeyframe || whenEmpty == WaitPublish
    ensures StreamInv(c, GiveBurst(s, id, whenEmpty))
  {
    GiveBurstKeepsViews(c, s, id, whenEmpty);
    SameSessionKeepsLog(c, s, GiveBurst(s, id, whenEmpty));
  }

  lemma WarmAttachKeepsStream(c: StreamCrypto, s: State, id: Id)
    requires StreamInv(c, s) && id in s.tasks && s.sh.writer != Some(id)
    ensures StreamInv(c, GiveBurst(s.(sh := CancelClose(s.sh)), id, WaitKeyframe))
  {
    var r := s.(sh := CancelClose(s.sh));
    assert PumpAlive(r) == PumpAlive(s);
    QuietKeepsStream(c, s, r);
    GiveBurstKeepsStream(c, r, id, WaitKeyframe);
  }

  lemma EnterKeepsStream(c: StreamCrypto, s: State, id: Id, ok: bool, timer: Id)
    requires ControlInv(s) && StreamInv(c, s) && Enabled(s, Enter(id, ok, timer))
    ensures StreamInv(c, EnterLocked(s, id, ok, timer))
  {
    assert s.sh.writer != Some(id) by {
      assert WriterInv(s);
    }
    hide ControlInv, StreamInv, Snapshot, Quiet, SameSession;
    if s.tasks[id].kind.Viewer? && PumpAlive(s) {
      WarmAttachKeepsStream(c, s, id);
    } else {
      EnterIsQuiet(s, id, ok, timer);
      QuietKeepsStream(c, s, EnterLocked(s, id, ok, timer));
    }
  }

  lemma PublishKeepsStream(c: StreamCrypto, s: State, id: Id)
    requires StreamInv(c, s) && Enabled(s, Publish(id))
    ensures StreamInv(c, Apply(c, s, Publish(id)))
  {
    assert TaskOk(s.tasks[id], s.log, s.base);
    var s' := Apply(c, s, Publish(id));
    PublishKeepsViews(s, id, s'.tasks[id], s.tasks[id].history.value);
    SameSessionKeepsLog(c, s, s');
  }

  lemma SnapshotGivesBurst(c: StreamCrypto, s: State, id: Id)
    requires WriterInv(s) && Enabled(s, SnapshotTaken(id))
    ensures id in s.tasks && s.sh.writer != Some(id)
    ensures Apply(c, s, SnapshotTaken(id)) == GiveBurst(s, id, WaitPublish)
  {
    hide GiveBurst;
  }

  lemma WriterOfControl(s: State)
    requires ControlInv(s)
    ensures WriterInv(s)
  {
  }

  lemma SnapshotKeepsStream(c: StreamCrypto, s: State, id: Id)
    requires ControlInv(s) && StreamInv(c, s) && Enabled(s, SnapshotTaken(id))
    ensures StreamInv(c, Apply(c, s, SnapshotTaken(id)))
  {
    hide *;
    WriterOfControl(s);
    SnapshotGivesBurst(c, s, id);
    GiveBurstKeepsStream(c, s, id, WaitPublish);
  }

  lemma StepKeepsStream(c: StreamCrypto, s: State, l: Label)
    requires ControlInv(s) && StreamInv(c, s) && Enabled(s, l)
    ensures StreamInv(c, Apply(c, s, l))
  {
    hide ControlInv, LogInv, ViewInv, BurstInv;
    if l.PumpReads? {
      PumpStepKeepsStream(c, s, l.p, l.raw);
    } else if l.SnapshotTaken? {
      SnapshotKeepsStream(c, s, l.id);
    } else if l.Publish? {
      PublishKeepsStream(c, s, l.id);
    } else if l.Enter? {
      EnterKeepsStream(c, s, l.id, l.ok, l.timer);
    } else {
      OtherStepKeepsStream(c, s, l);
    }
  }

  lemma OtherStepKeepsStream(c: StreamCrypto, s: State, l: Label)
    requires ControlInv(s) && StreamInv(c, s) && Enabled(s, l)
    requires !l.PumpReads? && !l.SnapshotTaken? && !l.Publish? && !l.Enter?
    ensures StreamInv(c, Apply(c, s, l))
  {
    if TeardownLabel(l) {
      TeardownStepIsQuiet(c, s, l);
    } else {
      OtherStepSameSession(c, s, l);
      if PumpLabel(l) { PumpStepIsQuiet(c, s, l); } else { TaskStepIsQuiet(c, s, l); }
    }
    QuietKeepsStream(c, s, Apply(c, s, l));
  }
}
