/** The fields all relay coroutines share, and what the code between two awaits does to them (tcp_relay.py:190-210). */
module RelayShared {
  import opened ByteStrings
  import RelayBuffer

  /** Tasks, pump tasks, LAN sessions and timer handles are named by numbers; a viewer's writer by its task. */
  type Id = nat

  const POST_CLIENT_GRACE_SECONDS := 5.0

  /** ``timers`` holds the armed timers of the event loop, which outlive the handle kept in ``closeHandle``. */
  datatype Shared = Shared(
    buffer: Bytes,
    writer: Option<Id>,
    pumpTask: Option<Id>,
    lan: Option<Id>,
    keyframeSeen: bool,
    closeHandle: Option<Id>,
    timers: set<Id>)

  const INITIAL := Shared([], None, None, None, false, None, {})

  /** A handle ``call_later`` may return: neither armed nor still remembered. */
  predicate FreshTimer(sh: Shared, t: Id)
  {
    t !in sh.timers && sh.closeHandle != Some(t)
  }

  /** Every armed timer is the remembered one, so it can still be cancelled. */
  ghost predicate Remembered(sh: Shared)
  {
    forall t | t in sh.timers :: sh.closeHandle == Some(t)
  }

  function CancelClose(sh: Shared): Shared
  {
    match sh.closeHandle
    case None => sh
    case Some(t) => sh.(closeHandle := None, timers := sh.timers - {t})
  }

  /** Cancelling leaves no armed timer exactly when every armed one was remembered. */
  lemma CancelDisarms(sh: Shared)
    ensures CancelClose(sh).timers == {} <==> Remembered(sh)
  {
    if CancelClose(sh).timers == {} {
      forall t | t in sh.timers ensures sh.closeHandle == Some(t) {
        assert t !in CancelClose(sh).timers;
      }
    }
  }

  function RescheduleClose(sh: Shared, seconds: real, t: Id): Shared
  {
    var c := CancelClose(sh);
    if seconds <= 0.0 then c else c.(closeHandle := Some(t), timers := c.timers + {t})
  }

  /** _spin_up_upstream once lan.start has returned. */
  function OpenSession(sh: Shared, session: Id): Shared
  {
    sh.(lan := Some(session), buffer := [], pumpTask := Some(session))
  }

  /** _teardown_upstream up to the cancellation of the pump. */
  function ForgetPump(sh: Shared): Shared
  {
    CancelClose(sh).(pumpTask := None)
  }

  /** _teardown_upstream after the pump has ended. */
  function ResetSession(sh: Shared): Shared
  {
    sh.(lan := None, buffer := [], keyframeSeen := false)
  }

  /** One pump step, from extending the buffer to the keyframe event. */
  function AbsorbChunk(sh: Shared, plain: Bytes): Shared
  {
    var b := RelayBuffer.Absorbed(sh.buffer, plain);
    sh.(buffer := b, keyframeSeen := sh.keyframeSeen || RelayBuffer.KeyframeComplete(b))
  }

  /** A viewer's cleanup: detach only if the published writer is still its own. */
  function DetachViewer(sh: Shared, me: Id, t: Id): Shared
  {
    if sh.writer == Some(me) then RescheduleClose(sh.(writer := None), POST_CLIENT_GRACE_SECONDS, t) else sh
  }

  /** The pump's reaction to a broken pipe on the writer it was draining. */
  function DropWriter(sh: Shared, w: Id): Shared
  {
    if sh.writer == Some(w) then sh.(writer := None) else sh
  }
}
