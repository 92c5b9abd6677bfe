/** The relay object's own fields and in-place updates (tcp_relay.py), proved against the functions on Shared. */
module RelayObject {
  import opened ByteStrings
  import opened Markers
  import opened RelayBuffer
  import RelayShared

  class CpdMpegPsRelay {
    var buffer: Bytes
    var writer: Option<nat>
    var pumpTask: Option<nat>
    var lan: Option<nat>
    var keyframeSeen: bool
    var closeHandle: Option<nat>

    /** The event loop's armed timers. */
    var timers: set<nat>

    function View(): RelayShared.Shared
      reads this
    {
      RelayShared.Shared(buffer, writer, pumpTask, lan, keyframeSeen, closeHandle, timers)
    }

    constructor ()
      ensures View() == RelayShared.INITIAL
    {
      buffer, writer, pumpTask, lan := [], None, None, None;
      keyframeSeen, closeHandle, timers := false, None, {};
    }

    method SnapshotBufferForNewClient() returns (burst: Bytes)
      ensures burst == Snapshot(buffer)
    {
      if buffer == [] {
        return [];
      }
      var b := buffer;
      var lastKf := RFindLastKeyframe(b);
      if lastKf < 0 {
        return b;
      }
      var pack := RFindPack(b, lastKf);
      var start := if pack >= 0 then pack else lastKf;
      return b[start..];
    }

    method TrimBufferToLastKeyframe()
      modifies `buffer
      ensures buffer == Trimmed(old(buffer))
    {
      var b := buffer;
      var lastKf := RFindLastKeyframe(b);
      if lastKf < TRIM_MIN_OFFSET {
        return;
      }
      var pack := RFindPack(b, lastKf);
      var start := if pack >= 0 then pack else lastKf;
      if start > 0 {
        buffer := buffer[start..];
      }
    }

    /** The pump's stretch from extending the buffer to the keyframe event. */
    method AbsorbChunk(plain: Bytes)
      modifies `buffer, `keyframeSeen
      ensures View() == RelayShared.AbsorbChunk(old(View()), plain)
    {
      buffer := buffer + plain;
      if |buffer| > BUFFER_TRIM_TARGET {
        TrimBufferToLastKeyframe();
      }
      if !keyframeSeen {
        var buf := buffer;
        var lastKf := RFindLastKeyframe(buf);
        if lastKf >= 0 && |buf| - lastKf >= KEYFRAME_MIN_TAIL_BYTES {
          keyframeSeen := true;
        }
      }
    }

    /** Afterwards no timer is armed, exactly if every armed one was remembered. */
    method CancelClose()
      modifies `closeHandle, `timers
      ensures View() == RelayShared.CancelClose(old(View()))
      ensures timers == {} <==> old(RelayShared.Remembered(View()))
    {
      RelayShared.CancelDisarms(View());
      var handle := closeHandle;
      closeHandle := None;
      if handle.Some? {
        timers := timers - {handle.value};
      }
    }

    /** Afterwards exactly the new timer is armed, or none for a non-positive delay, exactly if all were remembered. */
    method RescheduleClose(seconds: real, timer: nat)
      requires RelayShared.FreshTimer(View(), timer)
      modifies `closeHandle, `timers
      ensures View() == RelayShared.RescheduleClose(old(View()), seconds, timer)
      ensures timers == (if seconds > 0.0 then {timer} else {}) <==> old(RelayShared.Remembered(View()))
      ensures old(RelayShared.Remembered(View())) ==> RelayShared.Remembered(View())
    {
      ghost var others := RelayShared.CancelClose(View()).timers;
      CancelClose();
      if seconds <= 0.0 {
        return;
      }
      closeHandle := Some(timer);
      timers := timers + {timer};
      assert timers - {timer} == others;
    }

    /**
     _teardown_upstream without what other tasks do while it waits: the pump to cancel and the client to close are
     handed to the caller, and but for the viewer nothing is left, exactly if every armed timer was remembered.
     */
    method TeardownUpstream() returns (task: Option<nat>, client: Option<nat>)
      modifies `closeHandle, `timers, `pumpTask, `lan, `buffer, `keyframeSeen
      ensures task == old(pumpTask) && client == old(lan)
      ensures View() == RelayShared.ResetSession(RelayShared.ForgetPump(old(View())))
      ensures View() == RelayShared.INITIAL.(writer := old(writer)) <==> old(RelayShared.Remembered(View()))
    {
      CancelClose();
      task := pumpTask;
      pumpTask := None;
      client := lan;
      lan := None;
      buffer := [];
      keyframeSeen := false;
    }

    /** The locked part of a viewer's cleanup: another viewer and its timers are left alone. */
    method DetachViewer(me: nat, timer: nat) returns (detachedHere: bool)
      requires RelayShared.FreshTimer(View(), timer)
      modifies `writer, `closeHandle, `timers
      ensures View() == RelayShared.DetachViewer(old(View()), me, timer)
      ensures detachedHere <==> old(writer) == Some(me)
      ensures !detachedHere ==> unchanged(this)
      ensures writer != Some(me)
      ensures detachedHere && old(RelayShared.Remembered(View())) ==> timers == {timer} && closeHandle == Some(timer)
    {
      detachedHere := false;
      if writer == Some(me) {
        writer := None;
        detachedHere := true;
        RescheduleClose(RelayShared.POST_CLIENT_GRACE_SECONDS, timer);
      }
    }
  }
}
