/** What holds in every reachable state, and between any two points, of every run of the relay. */
module RelayTheorems {
  import opened ByteStrings
  import Markers
  import opened KeyframeGate
  import opened RelayBuffer
  import opened RelayShared
  import opened StreamSpec
  import opened Relay
  import opened RelayInvariants
  import opened RelayStream

  lemma StartOk(c: StreamCrypto)
    ensures ControlInv(START) && StreamInv(c, START)
  {
  }

  lemma {:induction false} RunKeepsInvariants(c: StreamCrypto, labels: seq<Label>)
    requires IsRun(c, labels)
    ensures ControlInv(After(c, labels)) && StreamInv(c, After(c, labels))
  {
    if labels == [] {
      StartOk(c);
    } else {
      var before, l := labels[..|labels| - 1], labels[|labels| - 1];
      RunKeepsInvariants(c, before);
      StepKeepsControl(c, After(c, before), l);
      StepKeepsStream(c, After(c, before), l);
    }
  }

  lemma OneAlive(s: State, p: Id, q: Id)
    requires LockInv(s) && PumpInv(s) && Alive(s, p) && Alive(s, q)
    ensures p == q
  {
    assert forall t | t in s.tasks :: PumpAllows(s, s.tasks[t].pc);
  }

  /** At most one pump task is alive. */
  lemma OnePump(c: StreamCrypto, labels: seq<Label>, p: Id, q: Id)
    requires IsRun(c, labels) && Alive(After(c, labels), p) && Alive(After(c, labels), q)
    ensures p == q
  {
    RunKeepsInvariants(c, labels);
    OneAlive(After(c, labels), p, q);
  }

  /** At most one task is inside a locked section. */
  lemma OneLockOwner(c: StreamCrypto, labels: seq<Label>, t: Id, u: Id)
    requires IsRun(c, labels) && t in After(c, labels).tasks && u in After(c, labels).tasks
    requires HoldsLock(After(c, labels).tasks[t].pc) && HoldsLock(After(c, labels).tasks[u].pc)
    ensures t == u
  {
    RunKeepsInvariants(c, labels);
  }

  /** Whenever the close timer's task is tearing the session down, no viewer is published. */
  lemma TimerTeardownUnwatched(c: StreamCrypto, labels: seq<Label>, t: Id)
    requires IsRun(c, labels)
    ensures var s := After(c, labels);
            t in s.tasks && s.tasks[t].kind.CloseTimer?
            && (s.tasks[t].pc.AwaitingPump? || s.tasks[t].pc.ClosingLan?) ==>
              s.sh.writer.None? && s.lock == Some(t)
  {
    RunKeepsInvariants(c, labels);
  }

  /** The buffer serves the same bursts as the untrimmed session log; the fallback without a keyframe is never taken. */
  lemma BurstsAreSynced(c: StreamCrypto, labels: seq<Label>)
    requires IsRun(c, labels)
    ensures var s := After(c, labels);
            && s.base <= |s.log|
            && Snapshot(s.sh.buffer) == Snapshot(Session(s))
            && (s.sh.buffer == [] <==> Session(s) == [])
            && (s.sh.buffer != [] ==> HasKeyframe(s.sh.buffer) && StartsGroup(Snapshot(s.sh.buffer)))
            && (PumpAlive(s) ==> Session(s) == Reference(c, s.pumps[s.sh.pumpTask.value].wire))
  {
    RunKeepsInvariants(c, labels);
    var s := After(c, labels);
    SyncedSnapshot(s.sh.buffer, Session(s));
    CacheLastKeyframe(s.sh.buffer, Session(s));
  }

  lemma UninterruptedPiece(h: History, delivered: Bytes, log: Bytes, base: nat)
    requires HistoryOk(h, delivered, log, base) && h.live == h.at
    requires h.from < h.at ==> IsSyncStart(log[h.from..h.at])
    ensures delivered == log[h.from..h.upto]
    ensures delivered != [] ==> IsSyncStart(delivered)
  {
    assert log[h.from..h.at] + log[h.at..h.upto] == log[h.from..h.upto];
    if h.from < h.at {
      Markers.MarkersStay(log[h.from..h.at], log[h.live..h.upto], 0);
    }
  }

  lemma BurstStart(h: History, log: Bytes)
    requires BurstOk(h, log)
    ensures h.from < h.at ==> IsSyncStart(log[h.from..h.at])
  {
  }

  // Between two points of a run.

  predicate PastPublish(pc: Pc)
  {
    pc == Attached || pc == WaitCleanup || pc == Closing || pc == Done
  }

  /** How a viewer that has come as far as its publication may still change. */
  predicate Evolves(t: Task, t': Task)
  {
    && t'.kind == t.kind && (t.closing ==> t'.closing)
    && (PastPublish(t.pc) ==>
          && PastPublish(t'.pc)
          && t'.history.Some? == t.history.Some?
          && (t.history.Some? ==>
                && t'.history.value == t.history.value.(upto := t'.history.value.upto)
                && t.history.value.upto <= t'.history.value.upto
                && (t.closing ==> t'.history.value.upto == t.history.value.upto)))
  }

  ghost predicate AllEvolve(s: State, s': State)
  {
    && s.log <= s'.log
    && (forall t | t in s.tasks :: t in s'.tasks && Evolves(s.tasks[t], s'.tasks[t]))
  }

  lemma OneTaskEvolves(s: State, s': State, id: Id)
    requires id in s'.tasks && s'.tasks == s.tasks[id := s'.tasks[id]] && s'.log == s.log
    requires id in s.tasks ==> Evolves(s.tasks[id], s'.tasks[id])
    ensures AllEvolve(s, s')
  {
  }

  lemma PumpStepEvolves(c: StreamCrypto, s: State, p: Id, raw: Bytes)
    requires ViewInv(s) && p in s.pumps
    ensures AllEvolve(s, PumpStep(c, s, p, raw))
    ensures PumpStep(c, s, p, raw).sh.writer == s.sh.writer
  {
    var plain := Increment(c, s.pumps[p].wire, raw);
    if plain != [] {
      AbsorbedFields(s, p, s.pumps[p].(wire := s.pumps[p].wire + raw), plain);
      ForwardEvolves(s, plain);
    }
  }

  lemma ForwardEvolves(s: State, plain: Bytes)
    requires ViewInv(s)
    ensures forall t | t in s.tasks :: t in Forward(s, plain) && Evolves(s.tasks[t], Forward(s, plain)[t])
  {
    if Receives(s) {
      assert LiveOk(s.tasks[s.sh.writer.value], |s.log|);
    }
  }

  lemma TeardownEvolves(s: State, id: Id)
    requires id in s.tasks && !PastPublish(s.tasks[id].pc)
    ensures AllEvolve(s, BeginTeardown(s, id)) && BeginTeardown(s, id).sh.writer == s.sh.writer
    ensures AllEvolve(s, ResetUpstream(s, id)) && ResetUpstream(s, id).sh.writer == s.sh.writer
  {
    OneTaskEvolves(s, BeginTeardown(s, id), id);
    OneTaskEvolves(s, ResetUpstream(s, id), id);
  }

  lemma TimerEnterEvolves(s: State, id: Id, ok: bool, timer: Id)
    requires At(s, id, Waiting) && s.tasks[id].kind.CloseTimer?
    ensures AllEvolve(s, EnterLocked(s, id, ok, timer)) && EnterLocked(s, id, ok, timer).sh.writer == s.sh.writer
  {
    var r := s.(sh := s.sh.(closeHandle := None));
    if r.sh.writer.Some? || !PumpAlive(r) {
      OneTaskEvolves(s, Goto(r, id, Done), id);
    } else {
      TeardownEvolves(r, id);
    }
  }

  lemma SpinUpEvolves(s: State, id: Id, ok: bool)
    requires At(s, id, Waiting)
    ensures AllEvolve(s, BeginSpinUp(s, id, ok)) && BeginSpinUp(s, id, ok).sh.writer == s.sh.writer
  {
    if ok { OneTaskEvolves(s, BeginSpinUp(s, id, ok), id); } else { TeardownEvolves(s, id); }
  }

  lemma EnterEvolves(s: State, id: Id, ok: bool, timer: Id)
    requires At(s, id, Waiting)
    ensures AllEvolve(s, EnterLocked(s, id, ok, timer)) && EnterLocked(s, id, ok, timer).sh.writer == s.sh.writer
  {
    match s.tasks[id].kind
    case Viewer =>
      if PumpAlive(s) {
        var r := s.(sh := CancelClose(s.sh));
        OneTaskEvolves(r, WithBurst(r, id, WaitKeyframe, Snapshot(r.sh.buffer)), id);
      } else {
        SpinUpEvolves(s, id, ok);
      }
    case Prewarm(hold) =>
      if PumpAlive(s) {
        OneTaskEvolves(s, Goto(s.(sh := RescheduleClose(s.sh, hold, timer)), id, Done), id);
      } else {
        SpinUpEvolves(s, id, ok);
      }
    case CloseTimer => TimerEnterEvolves(s, id, ok, timer);
    case Stopper => TeardownEvolves(s, id);
  }

  /** Every step extends the log, and makes somebody the published viewer only by publishing it. */
  lemma StepEvolves(c: StreamCrypto, s: State, l: Label)
    requires ViewInv(s) && Enabled(s, l)
    ensures AllEvolve(s, Apply(c, s, l))
    ensures var writer := Apply(c, s, l).sh.writer;
            writer == s.sh.writer || writer.None? || l == Publish(writer.value)
  {
    if l.PumpReads? {
      PumpStepEvolves(c, s, l.p, l.raw);
    } else if l.Enter? {
      EnterEvolves(s, l.id, l.ok, l.timer);
    } else if l.SnapshotTaken? {
      OneTaskEvolves(s, Apply(c, s, l), l.id);
    } else if TeardownLabel(l) {
      TeardownStepEvolves(c, s, l);
    } else {
      OtherStepEvolves(c, s, l);
    }
  }

  lemma TeardownStepEvolves(c: StreamCrypto, s: State, l: Label)
    requires Enabled(s, l) && TeardownLabel(l)
    ensures AllEvolve(s, Apply(c, s, l)) && Apply(c, s, l).sh.writer == s.sh.writer
  {
    hide AllEvolve;
    match l
    case KeyFetched(id, ok) => if ok { OneTaskEvolves(s, Apply(c, s, l), id); } else { TeardownEvolves(s, id); }
    case LanStarted(id, ok, session, timer) =>
      if ok { OneTaskEvolves(s, Apply(c, s, l), id); } else { TeardownEvolves(s, id); }
    case PumpAwaited(id) => TeardownEvolves(s, id);
    case LanClosed(id) => OneTaskEvolves(s, Apply(c, s, l), id);
  }

  lemma OtherStepEvolves(c: StreamCrypto, s: State, l: Label)
    requires Enabled(s, l) && !TeardownLabel(l) && !l.PumpReads? && !l.Enter? && !l.SnapshotTaken?
    ensures AllEvolve(s, Apply(c, s, l))
    ensures var writer := Apply(c, s, l).sh.writer;
            writer == s.sh.writer || writer.None? || l == Publish(writer.value)
  {
    if !PumpLabel(l) {
      OneTaskEvolves(s, Apply(c, s, l), l.id);
    }
  }

  lemma {:induction false} PrefixIsRun(c: StreamCrypto, labels: seq<Label>, i: nat)
    requires IsRun(c, labels) && i <= |labels|
    ensures IsRun(c, labels[..i])
    decreases |labels|
  {
    if i == |labels| {
      assert labels[..i] == labels;
    } else {
      var before := labels[..|labels| - 1];
      PrefixIsRun(c, before, i);
      assert before[..i] == labels[..i];
    }
  }

  lemma EvolveTransitive(s: State, s': State, s'': State)
    requires AllEvolve(s, s') && AllEvolve(s', s'')
    ensures AllEvolve(s, s'')
  {
    forall t | t in s.tasks ensures t in s''.tasks && Evolves(s.tasks[t], s''.tasks[t]) {
      assert Evolves(s.tasks[t], s'.tasks[t]) && Evolves(s'.tasks[t], s''.tasks[t]);
    }
  }

  lemma {:induction false} RunEvolves(c: StreamCrypto, labels: seq<Label>, i: nat)
    requires IsRun(c, labels) && i <= |labels|
    ensures IsRun(c, labels[..i]) && AllEvolve(After(c, labels[..i]), After(c, labels))
    decreases |labels|
  {
    PrefixIsRun(c, labels, i);
    if i == |labels| {
      assert labels[..i] == labels;
    } else {
      var before, l := labels[..|labels| - 1], labels[|labels| - 1];
      assert before[..i] == labels[..i];
      RunEvolves(c, before, i);
      RunKeepsInvariants(c, before);
      StepEvolves(c, After(c, before), l);
      EvolveTransitive(After(c, labels[..i]), After(c, before), After(c, labels));
    }
  }

  /** From ``s`` to ``s'``, the viewer gained one contiguous stretch of what was pumped, or nothing once closing. */
  ghost predicate GainsStretch(s: State, s': State, v: Id)
  {
    && v in s.tasks && v in s'.tasks && |s.log| <= |s'.log|
    && (!s.tasks[v].closing ==> exists n: nat | |s.log| <= n <= |s'.log| ::
          s'.tasks[v].delivered == s.tasks[v].delivered + s'.log[|s.log|..n])
    && (s.tasks[v].closing ==> s'.tasks[v].delivered == s.tasks[v].delivered)
    && (s'.sh.writer == Some(v) && !s'.tasks[v].closing ==>
          s'.tasks[v].delivered == s.tasks[v].delivered + s'.log[|s.log|..])
  }

  lemma LiveBetween(s: State, s': State, v: Id)
    requires WriterInv(s) && ViewInv(s) && ViewInv(s') && AllEvolve(s, s') && s.sh.writer == Some(v)
    ensures GainsStretch(s, s', v)
  {
    var t, t' := s.tasks[v], s'.tasks[v];
    assert Evolves(t, t') && LiveOk(t, |s.log|);
    assert TaskOk(t, s.log, s.base) && TaskOk(t', s'.log, s'.base);
    var h, h' := t.history.value, t'.history.value;
    DeliveredGrows(h, h', t.delivered, t'.delivered, s.log, s'.log);
    assert t.closing ==> s'.log[h.upto..h'.upto] == [];
    if s'.sh.writer == Some(v) && !t'.closing {
      assert LiveOk(t', |s'.log|);
      assert s'.log[|s.log|..h'.upto] == s'.log[|s.log|..];
    }
  }

  /**
   Live delivery between two points of a run: the viewer published at the first point has, at the second, gained one
   contiguous stretch of what was pumped since, without a gap; all of it if it is still published and open.
   */
  lemma LiveDelivery(c: StreamCrypto, labels: seq<Label>, i: nat, v: Id)
    requires IsRun(c, labels) && i <= |labels|
    requires IsRun(c, labels[..i]) && After(c, labels[..i]).sh.writer == Some(v)
    ensures GainsStretch(After(c, labels[..i]), After(c, labels), v)
  {
    RunKeepsInvariants(c, labels[..i]);
    RunKeepsInvariants(c, labels);
    RunEvolves(c, labels, i);
    LiveBetween(After(c, labels[..i]), After(c, labels), v);
  }

  lemma DeliveredGrows(h: History, h': History, delivered: Bytes, delivered': Bytes, log: Bytes, log': Bytes)
    requires Ordered(h, |log|) && Ordered(h', |log'|) && log <= log'
    requires h' == h.(upto := h'.upto) && h.upto <= h'.upto
    requires delivered == log[h.from..h.at] + log[h.live..h.upto]
    requires delivered' == log'[h'.from..h'.at] + log'[h'.live..h'.upto]
    ensures delivered' == delivered + log'[h.upto..h'.upto]
  {
    assert log'[h.from..h.at] == log[h.from..h.at];
    assert log'[h.live..h'.upto] == log[h.live..h.upto] + log'[h.upto..h'.upto];
  }

  // Viewer ownership.

  /** The published writer always belongs to a viewer between its attach and its cleanup. */
  lemma PublishedViewerIsAttached(c: StreamCrypto, labels: seq<Label>, v: Id)
    requires IsRun(c, labels) && After(c, labels).sh.writer == Some(v)
    ensures v in After(c, labels).tasks && Publishes(After(c, labels).tasks[v])
  {
    RunKeepsInvariants(c, labels);
  }

  /** Only a new publication, its own cleanup, or a broken pipe on its own writer replaces a published viewer. */
  lemma OnlyItsOwnEndDetaches(c: StreamCrypto, labels: seq<Label>, l: Label, v: Id)
    requires IsRun(c, labels) && Enabled(After(c, labels), l)
    requires After(c, labels).sh.writer == Some(v) && Apply(c, After(c, labels), l).sh.writer != Some(v)
    ensures || (l.Publish? && l.id != v)
            || (l.Cleanup? && l.id == v)
            || (l.PumpWrote? && !l.ok && After(c, labels).pumps[l.p].phase == Writing(v))
  {
    RunKeepsInvariants(c, labels);
    DetachingLabels(c, After(c, labels), l, v);
  }

  lemma DetachingLabels(c: StreamCrypto, s: State, l: Label, v: Id)
    requires Enabled(s, l) && ViewInv(s) && s.sh.writer == Some(v) && Apply(c, s, l).sh.writer != Some(v)
    ensures || (l.Publish? && l.id != v)
            || (l.Cleanup? && l.id == v)
            || (l.PumpWrote? && !l.ok && s.pumps[l.p].phase == Writing(v))
  {
    hide Snapshot, Increment;
    if l.PumpReads? {
      PumpStepEvolves(c, s, l.p, l.raw);
    } else if l.Enter? {
      EnterEvolves(s, l.id, l.ok, l.timer);
    } else if TeardownLabel(l) {
      TeardownStepEvolves(c, s, l);
    }
  }

  /** Once past its publication and not the published viewer, a viewer stays detached. */
  lemma {:induction false} StaysDetached(c: StreamCrypto, labels: seq<Label>, j: nat, v: Id)
    requires IsRun(c, labels) && j <= |labels| && IsRun(c, labels[..j])
    requires v in After(c, labels[..j]).tasks && PastPublish(After(c, labels[..j]).tasks[v].pc)
    requires After(c, labels[..j]).sh.writer != Some(v)
    ensures After(c, labels).sh.writer != Some(v)
    decreases |labels|
  {
    if j == |labels| {
      assert labels[..j] == labels;
    } else {
      var before, l := labels[..|labels| - 1], labels[|labels| - 1];
      assert before[..j] == labels[..j];
      StaysDetached(c, before, j, v);
      RunEvolves(c, before, j);
      RunKeepsInvariants(c, before);
      assert Evolves(After(c, labels[..j]).tasks[v], After(c, before).tasks[v]);
      StepEvolves(c, After(c, before), l);
    }
  }

  /** A viewer that was published and is no longer is never published again. */
  lemma NeverReattached(c: StreamCrypto, labels: seq<Label>, i: nat, j: nat, v: Id)
    requires IsRun(c, labels) && i <= j <= |labels| && IsRun(c, labels[..i]) && IsRun(c, labels[..j])
    requires After(c, labels[..i]).sh.writer == Some(v) && After(c, labels[..j]).sh.writer != Some(v)
    ensures After(c, labels).sh.writer != Some(v)
  {
    PublishedViewerIsAttached(c, labels[..i], v);
    assert labels[..j][..i] == labels[..i];
    RunEvolves(c, labels[..j], i);
    assert Evolves(After(c, labels[..i]).tasks[v], After(c, labels[..j]).tasks[v]);
    StaysDetached(c, labels, j, v);
  }

  // What a viewer was given, tied to the moments of the run.

  predicate TakesSnapshot(l: Label, v: Id)
  {
    (l.SnapshotTaken? || l.Enter?) && l.id == v
  }

  /** A history is written at a snapshot and at a publication; in between only live bytes are added to it. */
  ghost predicate HistoryStep(s: State, s': State, l: Label, v: Id)
    requires v in s'.tasks && s'.tasks[v].history.Some?
  {
    var h' := s'.tasks[v].history.value;
    || (TakesSnapshot(l, v) && h'.base == s.base && h'.at == |s.log| && !h'.published)
    || (v in s.tasks && s.tasks[v].history.Some? &&
        var h := s.tasks[v].history.value;
        || (l == Publish(v) && h' == h.(published := true, live := |s.log|, upto := |s.log|))
        || h' == h.(upto := h'.upto))
  }

  lemma PumpStepHistories(c: StreamCrypto, s: State, p: Id, raw: Bytes, v: Id)
    requires Enabled(s, PumpReads(p, raw)) && v in PumpStep(c, s, p, raw).tasks
    requires PumpStep(c, s, p, raw).tasks[v].history.Some?
    ensures HistoryStep(s, PumpStep(c, s, p, raw), PumpReads(p, raw), v)
  {
    var plain := Increment(c, s.pumps[p].wire, raw);
    if plain != [] {
      AbsorbedFields(s, p, s.pumps[p].(wire := s.pumps[p].wire + raw), plain);
    }
  }

  lemma GiveBurstHistories(s: State, id: Id, whenEmpty: Pc, l: Label, v: Id)
    requires id in s.tasks && TakesSnapshot(l, id) && v in s.tasks && GiveBurst(s, id, whenEmpty).tasks[v].history.Some?
    ensures HistoryStep(s, GiveBurst(s, id, whenEmpty), l, v)
  {
  }

  lemma QuietHistories(s: State, s': State, l: Label, v: Id)
    requires Quiet(s, s') && v in s'.tasks && s'.tasks[v].history.Some?
    ensures HistoryStep(s, s', l, v)
  {
  }

  lemma EnterHistories(c: StreamCrypto, s: State, l: Label, v: Id)
    requires Enabled(s, l) && l.Enter? && v in Apply(c, s, l).tasks && Apply(c, s, l).tasks[v].history.Some?
    ensures HistoryStep(s, Apply(c, s, l), l, v)
  {
    if s.tasks[l.id].kind.Viewer? && PumpAlive(s) {
      var r := s.(sh := CancelClose(s.sh));
      GiveBurstHistories(r, l.id, WaitKeyframe, l, v);
    } else {
      EnterIsQuiet(s, l.id, l.ok, l.timer);
      QuietHistories(s, Apply(c, s, l), l, v);
    }
  }

  lemma StepHistories(c: StreamCrypto, s: State, l: Label, v: Id)
    requires ControlInv(s) && Enabled(s, l) && v in Apply(c, s, l).tasks && Apply(c, s, l).tasks[v].history.Some?
    ensures HistoryStep(s, Apply(c, s, l), l, v)
  {
    if l.PumpReads? {
      PumpStepHistories(c, s, l.p, l.raw, v);
    } else if l.SnapshotTaken? {
      GiveBurstHistories(s, l.id, WaitPublish, l, v);
    } else if l.Enter? {
      EnterHistories(c, s, l, v);
    } else if !l.Publish? {
      OtherStepHistories(c, s, l, v);
    }
  }

  lemma OtherStepHistories(c: StreamCrypto, s: State, l: Label, v: Id)
    requires ControlInv(s) && Enabled(s, l) && v in Apply(c, s, l).tasks && Apply(c, s, l).tasks[v].history.Some?
    requires !l.PumpReads? && !l.SnapshotTaken? && !l.Enter? && !l.Publish?
    ensures HistoryStep(s, Apply(c, s, l), l, v)
  {
    if TeardownLabel(l) {
      TeardownStepIsQuiet(c, s, l);
    } else if PumpLabel(l) {
      PumpStepIsQuiet(c, s, l);
    } else {
      TaskStepIsQuiet(c, s, l);
    }
    QuietHistories(s, Apply(c, s, l), l, v);
  }

  /** Step ``i`` took the snapshot ``h`` speaks of, and step ``j`` published the viewer, if ``h`` says it was. */
  ghost predicate Recorded(c: StreamCrypto, labels: seq<Label>, v: Id, h: History, i: nat, j: nat)
  {
    && i < |labels| && IsRun(c, labels[..i]) && TakesSnapshot(labels[i], v)
    && After(c, labels[..i]).base == h.base && |After(c, labels[..i]).log| == h.at
    && (h.published ==>
          && i < j < |labels| && IsRun(c, labels[..j]) && labels[j] == Publish(v)
          && |After(c, labels[..j]).log| == h.live)
  }

  lemma RecordedLater(c: StreamCrypto, labels: seq<Label>, more: seq<Label>, v: Id, h: History, i: nat, j: nat)
    requires labels <= more && Recorded(c, labels, v, h, i, j)
    ensures Recorded(c, more, v, h, i, j)
  {
    assert more[..i] == labels[..i];
    if h.published {
      assert more[..j] == labels[..j];
    }
  }

  lemma {:induction false} HistoryRecordsRun(c: StreamCrypto, labels: seq<Label>, v: Id) returns (i: nat, j: nat)
    requires IsRun(c, labels) && v in After(c, labels).tasks && After(c, labels).tasks[v].history.Some?
    ensures Recorded(c, labels, v, After(c, labels).tasks[v].history.value, i, j)
  {
    var n := |labels| - 1;
    var before, l := labels[..n], labels[n];
    var s, s' := After(c, before), After(c, labels);
    RunKeepsInvariants(c, before);
    StepHistories(c, s, l, v);
    var h' := s'.tasks[v].history.value;
    if TakesSnapshot(l, v) && h'.base == s.base && h'.at == |s.log| && !h'.published {
      return n, n;
    }
    i, j := HistoryRecordsRun(c, before, v);
    var h := s.tasks[v].history.value;
    RecordedLater(c, before, labels, v, h, i, j);
    if l == Publish(v) && h' == h.(published := true, live := |s.log|, upto := |s.log|) {
      j := n;
    }
  }

  /** ``delivered`` is the burst, then the live stretch. */
  predicate PiecesOf(h: History, delivered: Bytes, log: Bytes)
    requires Ordered(h, |log|)
  {
    delivered == log[h.from..h.at] + log[h.live..h.upto] && log[h.from..h.at] == Snapshot(log[h.base..h.at])
  }

  /**
   What a viewer has received is the snapshot of its session as it was at step ``i``, a suffix of that session's log,
   followed by one contiguous stretch of the log that starts where the log ended at publication, step ``j``, and no
   earlier than the snapshot: nothing is duplicated, reordered, or sent live before the burst.
   */
  lemma ViewersGetSuffixThenStretch(c: StreamCrypto, labels: seq<Label>, v: Id) returns (h: History, i: nat, j: nat)
    requires IsRun(c, labels) && v in After(c, labels).tasks
    ensures var delivered, log := After(c, labels).tasks[v].delivered, After(c, labels).log;
            if After(c, labels).tasks[v].history.None? then delivered == []
            else
              && Recorded(c, labels, v, h, i, j)
              && Ordered(h, |log|) && PiecesOf(h, delivered, log)
              && (!h.published ==> delivered == log[h.from..h.at])
  {
    RunKeepsInvariants(c, labels);
    var s := After(c, labels);
    var t := s.tasks[v];
    assert TaskOk(t, s.log, s.base);
    h, i, j := History(0, 0, 0, false, 0, 0), 0, 0;
    if t.history.Some? {
      h := t.history.value;
      i, j := HistoryRecordsRun(c, labels, v);
      assert BurstOk(h, s.log);
      assert h.live == h.upto ==> s.log[h.live..h.upto] == [];
    }
  }

  /**
   If nothing is pumped between a viewer's last snapshot, step ``i``, and its publication, step ``j``, its whole stream
   is one contiguous piece of plaintext that starts at a pack header or keyframe marker, even when its burst was empty.
   */
  lemma UninterruptedViewersAreSynced(c: StreamCrypto, labels: seq<Label>, v: Id, h: History, i: nat, j: nat)
    requires IsRun(c, labels) && v in After(c, labels).tasks && After(c, labels).tasks[v].history == Some(h)
    requires Recorded(c, labels, v, h, i, j) && h.published
    requires |After(c, labels[..i]).log| == |After(c, labels[..j]).log|
    ensures var log, delivered := After(c, labels).log, After(c, labels).tasks[v].delivered;
            && h.from <= h.upto <= |log| && delivered == log[h.from..h.upto]
            && (delivered != [] ==> IsSyncStart(delivered))
  {
    RunKeepsInvariants(c, labels);
    var s := After(c, labels);
    var t := s.tasks[v];
    assert TaskOk(t, s.log, s.base);
    BurstStart(h, s.log);
    UninterruptedPiece(h, t.delivered, s.log, s.base);
  }
}
