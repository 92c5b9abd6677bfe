# Verified model of the live-stream data path

This project models, in Dafny 4.11, how live video travels from the doorbell's TCP socket to a viewer's socket in the
`ezviz_hp7` integration, and proves properties of that path over all inputs and all runs.

* `ByteStrings`, `Search`, `Markers`: bytes, big-endian integers, searches, and the keyframe and pack-header patterns.
* `Frames`, `Nonce`, `KeyframeGate`, `StreamSpec`: what a decoder computes of the whole wire stream. `Reference` parses
  all frames (section 10.12 of RFC 2326), takes the key from the first, decrypts the others (section 2.4 of RFC 8439)
  and keeps the plaintext from the sync point on.
* `StreamDecoder`: the incremental decoder as a class over its buffers and flags, with ghost logs of all bytes fed, all
  plaintext seen and everything taken, proved to produce `Reference` of the bytes fed so far.
* `RelayBuffer`, `RelayShared`, `RelayObject`: the relay's ring buffer and shared fields; the class methods are proved
  against functions on the shared state.
* `Relay`: the relay as a transition system. A label is one stretch of code between two awaits, run by a viewer's
  handler, a prewarm call, a close-timer task, stop, or a pump task; it carries what the environment chose. The state
  holds the lock, a program counter per task, the pump tasks, the armed timers, a log of all plaintext ever pumped, and
  what each viewer was given. The pump step uses the decoder's proved output, so decoder and relay are composed.
  `RelayInvariants`, `RelayStream` and `RelayTheorems` prove what holds over all runs.
* `RelaySessions`, `CameraStream`: all sessions of a run together, and the way from a camera to a viewer.
* `RelayProgress`: nobody gets stuck; the lock comes free, tasks come to their end, and the pump comes to read again.
* `RelayGap`, `RelayTimers`, `RelayEarlyClose`, `RelayIdle`, `RelayClients`, `RelayEvent`, `RelayMemory`: promises the
  relay does not always keep, each with the exact condition and a run that breaks it: a continuous stream, timers that
  can be cancelled, a session that lasts until its viewer is served, sessions that end after their last viewer, one open
  LAN client, a keyframe event of the current session, a complete keyframe for a woken viewer, a 4 MB buffer.
  `RelayRuns` has the parts of those runs.
* `BlockCipher`, `Sockets`, `Cas`, `LanClient`: control packets under arbitrary fragmentation, the nested transfer, and
  the LAN client with its PLAY socket. CBC (section 6.2 of NIST SP 800-38A) and PKCS#7 padding (section 6.3 of RFC 5652)
  are defined concretely over an uninterpreted block permutation.
* `Upstream`: one whole session, from the PLAY hand-over through the decoder into the relay's buffer.

Key derivation, the ChaCha20 keystream, the AES block permutation, the MD5 digest, the search for the session number and
the XML texts are parameters. A socket is the bytes its peer sends in time, followed by a close or by silence; `Recv`
returns any non-empty prefix. Waiting for the keyframe may end at any time, since it has a timeout, and any ready task may
go next, so the model's runs include every run of the program.

Where the code and its own documentation disagree, the model follows the code:

* `transform_nonce` reverses the four bytes; its docstring (crypto.py:173-174) says the two swaps cancel.
* At its size cap the pre-keyframe accumulator is cut and waits; its comment (decoder.py:63-66) says it emits anyway.
* A trim does not bound the buffer by its target (tcp_relay.py:49-53); `RelayMemory` has the bound and the run.
* A viewer does not get what is pumped while its burst is written; the module comment (tcp_relay.py:3-6) promises a
  continuous stream. `RelayGap` has the run and the exact loss.

## Model

| member | source | states |
|---|---|---|
| RelayTheorems.ViewersGetSuffixThenStretch | custom_components/ezviz_hp7/tcp_relay.py:345-428 | in every run, a viewer has received the snapshot its session's untrimmed log had at the snapshot step, then one contiguous stretch of the log starting at the log's length at the publish step: nothing duplicated, reordered or sent live before the burst; before publication only the burst |
| RelayTheorems.LiveDelivery | custom_components/ezviz_hp7/tcp_relay.py:640-650 | between any two points of a run, the viewer published at the first has gained exactly one contiguous stretch of what was pumped since; all of it while it is still published and open, nothing once its transport is closing |
| RelayProgress.ClosedTransportsGetNothing | custom_components/ezviz_hp7/tcp_relay.py:640-644 | a published viewer whose transport closes gets nothing more |
| RelayProgress.ViewersEndClosed | custom_components/ezviz_hp7/tcp_relay.py:366-433 | in every run a viewer comes to its end with its transport closed, unless it is cancelled before its burst |
| RelayTheorems.UninterruptedViewersAreSynced | custom_components/ezviz_hp7/tcp_relay.py:377-419 | if nothing is pumped between a viewer's last snapshot and its publication, everything it receives is one piece of the log that starts at a pack header or keyframe marker, even after an empty burst |
| RelaySessions.LogIsOutputs | custom_components/ezviz_hp7/tcp_relay.py:465-509 | in every reachable state the whole log is the reference outputs of all sessions' decoders, laid end to end in the order of the sessions |
| RelaySessions.CameraToViewer | custom_components/ezviz_hp7/tcp_relay.py:345-428 | from camera to viewer over any number of sessions: what a viewer received is a burst and one stretch of the plaintexts the cameras wrapped and sent, each from its sync point on, laid end to end |
| RelayGap.MissingBytes | custom_components/ezviz_hp7/tcp_relay.py:402-417 | what a published viewer lacks are exactly the bytes pumped between its snapshot and its publication; put back between burst and live stretch they make one piece of the log, and it got that piece itself if and only if there are none |
| RelayGap.StreamsCanHaveGaps | custom_components/ezviz_hp7/tcp_relay.py:1-25 | the module comment's continuous stream is not always kept: for every cipher and every handshake that yields a key there is a well-formed stream and a run after which what a still published, open viewer got, a burst above 64 KiB and later bytes, is no contiguous piece of the plaintext at all |
| RelayGap.GapRun | custom_components/ezviz_hp7/tcp_relay.py:402-417 | for any three reads of which the first and last produce output: a run in which the viewer got the burst of the first and all of the third, and nothing of the second |
| RelayTheorems.OnePump | custom_components/ezviz_hp7/tcp_relay.py:465-526 | at most one pump task is alive, under every interleaving of viewers, prewarms, timers and stop |
| RelayTheorems.OneLockOwner | custom_components/ezviz_hp7/tcp_relay.py:190-195 | at most one task is suspended inside a locked section |
| RelayProgress.LockComesFree | custom_components/ezviz_hp7/tcp_relay.py:350-375 | whenever the lock is held at most four steps free it, whatever the key fetch and the connection turn out like: the owner's own, and the end of the pump it has cancelled; a viewer whose start failed is then at its end, one whose session started waits for its keyframe |
| RelayProgress.CancelledTasksLetGo | custom_components/ezviz_hp7/tcp_relay.py:350-375 | a task cancelled before its burst, even inside the lock, is at its end and holds no lock, and nothing else has changed |
| RelayProgress.StopEndsEverything | custom_components/ezviz_hp7/tcp_relay.py:268-279 | a stop that gets the lock ends everything in at most four more steps: no pump lives, no client is known, buffer and event are empty, and no timer is armed exactly if every armed one was remembered |
| RelayProgress.TaskFinishes | custom_components/ezviz_hp7/tcp_relay.py:345-437 | from every reachable state every task can come to its end in at most sixteen steps, none of them a cancellation |
| RelayProgress.PumpGoesOn | custom_components/ezviz_hp7/tcp_relay.py:640-650 | a live pump that is not reading comes to read again by one step of its own, which drops the published writer exactly if its own pipe broke |
| RelayProgress.EnvironmentIsFree | custom_components/ezviz_hp7/tcp_relay.py:345-437 | what the runs leave open at any time: callers arrive, armed timers fire, peers close, viewers leave, tasks are cancelled before their burst, a live pump ends or reads any 1 to 65536 bytes |
| RelayTheorems.TimerTeardownUnwatched | custom_components/ezviz_hp7/tcp_relay.py:708-717 | from start to end of a timer-driven teardown no viewer is published |
| RelayEarlyClose.EarlyCloseExactly | custom_components/ezviz_hp7/tcp_relay.py:350-375 | if a run has overtaken no timer when a viewer gets its session and arms none afterwards, a close timer cancels the live pump exactly when its task gets the lock with nobody published, and was already waiting when the viewer got its session |
| RelayEarlyClose.ArmsExactly | custom_components/ezviz_hp7/tcp_relay.py:698-706 | a step arms a timer if and only if a prewarm call with a positive hold extends or starts a session, or the published viewer cleans up |
| RelayEarlyClose.EarlyCloseRun | custom_components/ezviz_hp7/tcp_relay.py:708-717 | it happens without overtaking: the timer fires, a viewer gets the session first, and the pump is cancelled under that viewer |
| RelayEarlyClose.PrewarmClosesRun | custom_components/ezviz_hp7/tcp_relay.py:698-717 | the other way: a prewarm call arms a timer after the viewer got its session, and it fires while the viewer still waits |
| RelayTheorems.PublishedViewerIsAttached | custom_components/ezviz_hp7/tcp_relay.py:416-428 | the published writer always belongs to a viewer between its attach and its cleanup |
| RelayProgress.LatestViewerTakesOver | custom_components/ezviz_hp7/tcp_relay.py:416-419 | the latest viewer always takes over as the published one, whoever was before, and is sent what is pumped from then on |
| RelayTheorems.OnlyItsOwnEndDetaches | custom_components/ezviz_hp7/tcp_relay.py:421-426 | a published viewer is replaced only by another publication, its own cleanup, or a broken pipe on its own writer: a superseded viewer's disconnect or an old writer's broken pipe never detaches the current one |
| RelayTheorems.NeverReattached | custom_components/ezviz_hp7/tcp_relay.py:416-428 | a viewer that was published and no longer is, is never published again |
| RelayTheorems.BurstsAreSynced | custom_components/ezviz_hp7/tcp_relay.py:663-678 | in every reachable state the trimmed buffer gives the snapshot of the whole session log, a non-empty buffer holds a keyframe marker, so the fallback is never taken and every non-empty burst starts with a pack header or three-byte-start-code marker; the live pump's session log is the decoder's reference output |
| RelayTimers.CompleteKeyframeWakesViewers | custom_components/ezviz_hp7/tcp_relay.py:634-638 | the keyframe event is set whenever the session's untrimmed log ends in a complete keyframe; the live pump reads from the current LAN client, so its early return is never taken |
| RelayTimers.StepRemembers | custom_components/ezviz_hp7/tcp_relay.py:692-711 | from a state in which every armed close timer is remembered, a step leaves one that can no longer be cancelled if and only if a close-timer task takes the lock while a newer timer is armed |
| RelayTimers.OvertakingRun | custom_components/ezviz_hp7/tcp_relay.py:708-710 | such a step is reachable: a prewarm call renews the timer while the fired one's task waits, and afterwards the new timer is armed and its handle forgotten |
| RelayIdle.UnattendedExactly | custom_components/ezviz_hp7/tcp_relay.py:416-426 | a step leaves a live pump with no viewer, no armed or fired close timer and a free lock, exactly if the last viewer cleans up without being the published one, the last viewer or waiting timer task is cancelled, or a prewarm call with a non-positive hold cancels the only timer or starts a session; it ends again exactly when anybody else enters or the pump ends |
| RelayIdle.UnattendedSince | custom_components/ezviz_hp7/tcp_relay.py:698-717 | every reachable unattended session goes back to one of those steps |
| RelayIdle.UnattendedUntilRevived | custom_components/ezviz_hp7/tcp_relay.py:698-717 | and after such a step it stays unattended until a step of the second kind |
| RelayIdle.DetachedBecause | custom_components/ezviz_hp7/tcp_relay.py:421-426 | why a viewer that was published is not the published one at its cleanup: at some step in between it was superseded, cleaned up itself, or its own pipe broke |
| RelayIdle.BrokenBurstRun | custom_components/ezviz_hp7/tcp_relay.py:413-426 | a run that ends unattended: a viewer's entry cancels the close timer, its burst breaks, its cleanup sets no new one |
| RelayIdle.BrokenPipeRun | custom_components/ezviz_hp7/tcp_relay.py:641-650 | another: the pump finds the published viewer's pipe broken before the viewer's own cleanup |
| RelayIdle.AbandonedViewerRun | custom_components/ezviz_hp7/tcp_relay.py:382-393 | another: a viewer is cancelled while it waits for the keyframe |
| RelayIdle.ShortPrewarmRun | custom_components/ezviz_hp7/tcp_relay.py:698-702 | another: a prewarm call whose hold is not positive |
| RelayClients.ClientsLost | custom_components/ezviz_hp7/tcp_relay.py:484-526 | a step leaves an open LAN client behind, which nobody closes any more, exactly if a session starts while an ended pump's client is still there, or a start is cancelled and completes; those left behind stay so, and at most one other client is open |
| RelayClients.OneClientOpen | custom_components/ezviz_hp7/tcp_relay.py:484-526 | a run has left no client behind if and only if none of its steps is of that kind; then at most one client is open |
| RelayClients.TwoClientsRun | custom_components/ezviz_hp7/tcp_relay.py:593-598 | two clients can be open: the pump meets the end of the stream, and the next prewarm call starts a second client |
| RelayEvent.EventExactly | custom_components/ezviz_hp7/tcp_relay.py:499-533 | the keyframe event is the current session's own when it is clear or that session's own log has ended in a complete keyframe; a step makes it foreign exactly if it starts a session while the event is set, and makes a foreign one own again, or clears it, exactly if it resets the session or the session's own log then ends in a complete keyframe |
| RelayEvent.EventIsOwn | custom_components/ezviz_hp7/tcp_relay.py:634-638 | so in a run that left no client behind the event is always the session's own; leaving a client behind does not by itself make it foreign |
| RelayEvent.StaleEventRun | custom_components/ezviz_hp7/tcp_relay.py:382-393 | foreign events are reachable: for every cipher and handshake that yields a key, a run in which a second session starts with the event set, which wakes a viewer at once and gives it an empty burst |
| RelayEvent.WokenViewersBurst | custom_components/ezviz_hp7/tcp_relay.py:627-638 | a viewer woken by its own session's event gets a snapshot with a keyframe, with 64 KB behind its last marker exactly if no marker starts within the last 64 KB of the session; one that does was pumped after the keyframe the event stands for |
| RelayEvent.LateKeyframeRun | custom_components/ezviz_hp7/tcp_relay.py:627-638 | the comment's full I-frame is not always kept: for every cipher and handshake that yields a key, a run in which a new marker is pumped between a viewer's wake and its snapshot, so that its burst ends in a bare marker |
| RelayMemory.BufferSize | custom_components/ezviz_hp7/tcp_relay.py:49-53 | in every reachable state the buffer holds at least the session's last group, and is within the target size or less than 1024 bytes longer than that group; past the target it is exactly the group, or the bytes since the session's last marker exceed the target less 1024 |
| RelayMemory.StepExceedsTarget | custom_components/ezviz_hp7/tcp_relay.py:621-625 | a pump step leaves more than the target size if and only if the session's last group alone is larger, or what is not yet forgotten is too much and the last marker lies below offset 1024 in it |
| RelayMemory.TargetExceededRun | custom_components/ezviz_hp7/tcp_relay.py:680-684 | it is exceeded: for every cipher and handshake that yields a key, by a well-formed stream with one marker and then more than 4 MB without one |
| RelayTimers.AttachDisarms | custom_components/ezviz_hp7/tcp_relay.py:366-366 | in runs without that overtaking at most one timer is armed, and a viewer that gets a session leaves none armed |
| RelayTheorems.RunKeepsInvariants | custom_components/ezviz_hp7/tcp_relay.py:190-210 | the lock, writer, pump, timer, log and viewer invariants hold in every reachable state |
| RelayInvariants.StepKeepsControl | custom_components/ezviz_hp7/tcp_relay.py:281-555 | every step keeps mutual exclusion, viewer ownership, single pump and unwatched timer teardown |
| RelayInvariants.TeardownKeeps | custom_components/ezviz_hp7/tcp_relay.py:511-526 | starting a teardown from any locked section keeps them, whether or not a pump is alive |
| RelayInvariants.CommitKeeps | custom_components/ezviz_hp7/tcp_relay.py:492-509 | so does opening a session |
| RelayStream.StepKeepsStream | custom_components/ezviz_hp7/tcp_relay.py:377-419 | every step keeps the session log's cache, the decoder's output as the log, and every viewer's account |
| RelayStream.PumpStepKeepsStream | custom_components/ezviz_hp7/tcp_relay.py:621-644 | the pump step, from extending the buffer to the writer, keeps them |
| RelayStream.ReadingPumpIsCurrent | custom_components/ezviz_hp7/tcp_relay.py:559-563 | a pump that can still read is the one the relay remembers |
| RelayStream.BurstOfSession | custom_components/ezviz_hp7/tcp_relay.py:345-393 | the burst handed to a viewer is the snapshot of everything its session produced, although the buffer was trimmed |
| RelayBuffer.SnapshotOfRun | custom_components/ezviz_hp7/tcp_relay.py:621-688 | for every run of appends and trims, the buffer's snapshot and keyframe test equal those of everything appended |
| RelayBuffer.SnapshotAgrees | custom_components/ezviz_hp7/tcp_relay.py:663-678 | snapshots and the wake-up test do not see that the buffer is a trimmed cache |
| RelayBuffer.CacheTrimmed | custom_components/ezviz_hp7/tcp_relay.py:680-688 | a trim keeps the buffer a cache of the log and never empties it |
| RelayBuffer.CacheAbsorbed | custom_components/ezviz_hp7/tcp_relay.py:621-625 | so does one append with its conditional trim |
| RelayBuffer.CacheGroupStart | custom_components/ezviz_hp7/tcp_relay.py:663-688 | no pack header straddles or precedes a cut that the search for the group start would have used |
| RelayBuffer.SnapshotShape | custom_components/ezviz_hp7/tcp_relay.py:663-678 | a snapshot starts at the last pack header before the last keyframe, or at the marker itself when there is no pack header at all, and holds that keyframe |
| RelayBuffer.TrimLeavesSnapshot | custom_components/ezviz_hp7/tcp_relay.py:680-688 | a trim leaves the buffer alone or leaves exactly what a viewer would be given |
| RelayBuffer.TrimsAt4M | custom_components/ezviz_hp7/tcp_relay.py:621-625 | a pump step cuts the buffer to its snapshot past 4194304 bytes with the last marker at 1024 or later, and leaves it alone otherwise |
| RelayBuffer.WakesAt64K | custom_components/ezviz_hp7/tcp_relay.py:634-638 | waiting viewers are woken exactly from 65536 bytes behind the start of the last marker |
| RelayBuffer.TargetExceeded | custom_components/ezviz_hp7/tcp_relay.py:49-53 | the same condition for any cache and the log it stands for, so trimming decides it only through how much was forgotten |
| RelayObject.CpdMpegPsRelay.SnapshotBufferForNewClient | custom_components/ezviz_hp7/tcp_relay.py:663-678 | the method's searches compute the snapshot |
| RelayObject.CpdMpegPsRelay.TrimBufferToLastKeyframe | custom_components/ezviz_hp7/tcp_relay.py:680-688 | the in-place deletion computes the trimmed buffer |
| RelayObject.CpdMpegPsRelay.AbsorbChunk | custom_components/ezviz_hp7/tcp_relay.py:621-638 | extend, trim and keyframe gate, as one update of the shared fields |
| RelayObject.CpdMpegPsRelay.CancelClose | custom_components/ezviz_hp7/tcp_relay.py:692-696 | afterwards no timer is armed, if and only if every armed one was remembered |
| RelayObject.CpdMpegPsRelay.RescheduleClose | custom_components/ezviz_hp7/tcp_relay.py:698-706 | afterwards exactly the new timer is armed, or none for a non-positive delay, if and only if every armed one was remembered |
| RelayObject.CpdMpegPsRelay.TeardownUpstream | custom_components/ezviz_hp7/tcp_relay.py:511-533 | hands out the pump to cancel and the client to close, and puts everything but the viewer back to the initial state, if and only if every armed timer was remembered |
| RelayObject.CpdMpegPsRelay.DetachViewer | custom_components/ezviz_hp7/tcp_relay.py:421-426 | leaves another viewer and every timer untouched; the caller's own writer goes, and then exactly the new timer is armed if all were remembered |
| Markers.RFindLastKeyframe | custom_components/ezviz_hp7/tcp_relay.py:65-72 | the maximum of four reverse searches is the last marker |
| Markers.LastKeyframeIsShort | custom_components/ezviz_hp7/tcp_relay.py:65-72 | the last marker always has the three-byte start code |
| StreamDecoding.DecodeInPieces | custom_components/ezviz_hp7/cpd7/decoder.py:107-156 | for every way of cutting the wire bytes into feed calls with takes in between, the takes up to any point concatenate to the reference output of the bytes fed so far |
| StreamDecoding.StreamDecoder.Feed | custom_components/ezviz_hp7/cpd7/decoder.py:107-112 | after a feed, taken and pending output together are the reference output of everything fed |
| StreamDecoding.StreamDecoder.Take | custom_components/ezviz_hp7/cpd7/decoder.py:114-117 | a take completes the reference output and empties the queue |
| StreamDecoding.StreamDecoder.StateFollowsWire | custom_components/ezviz_hp7/cpd7/decoder.py:87-101 | between calls the residual, the frames handled and the output depend only on the concatenated bytes; the residual has at most 65538 bytes, the accumulator at most 2097152, and a cut one is the plaintext's last 1048576 bytes or more |
| StreamDecoding.StreamDecoder.ConsumeOneChunk | custom_components/ezviz_hp7/cpd7/decoder.py:121-140 | one step keeps the invariant, shrinks the buffer, and stops only when no byte can be consumed |
| StreamDecoding.StreamDecoder.HandleChunk | custom_components/ezviz_hp7/cpd7/decoder.py:142-156 | the first frame yields the key, later frames plaintext, as the whole-stream function says |
| StreamDecoding.StreamDecoder.AbsorbPlain | custom_components/ezviz_hp7/cpd7/decoder.py:229-264 | the bounded accumulator gates exactly like the whole plaintext |
| StreamDecoding.StreamDecoder.FindStart | custom_components/ezviz_hp7/cpd7/decoder.py:236-249 | the two searches compute the sync point |
| StreamSpec.StreamRoundTrip | custom_components/ezviz_hp7/cpd7/decoder.py:121-210 | for any handshake that yields a key and any list of wrapped plaintexts mixed with other channels and dollar-free junk, the output is the plaintexts' concatenation from the sync point on |
| StreamSpec.ReferenceExtends | custom_components/ezviz_hp7/cpd7/decoder.py:229-259 | a longer wire stream only extends the output |
| StreamSpec.FirstIncrementSynced | custom_components/ezviz_hp7/cpd7/decoder.py:229-259 | the first bytes ever emitted start at a pack header or marker and bring a whole marker |
| StreamSpec.DataChunkRoundTrip | custom_components/ezviz_hp7/cpd7/decoder.py:186-210 | decrypting a wrapped plaintext gives it back |
| StreamSpec.DataChunkExact | custom_components/ezviz_hp7/cpd7/decoder.py:186-210 | a chunk decrypts to a non-empty plaintext if and only if it is that plaintext wrapped |
| StreamSpec.DataChunkBytes | custom_components/ezviz_hp7/cpd7/decoder.py:186-210 | byte `i` of a decrypted chunk is wire byte `15 + i` exclusive-or'd, as bits, with keystream byte `i` for the reversed nonce and eight zeros; the plaintext is 47 bytes shorter than the chunk |
| StreamSpec.OtherChunksAreEmpty | custom_components/ezviz_hp7/cpd7/decoder.py:186-200 | a chunk under 47 bytes, without the bytes 24 02 at offset 4, or under a key of another length than 32 gives nothing |
| StreamSpec.DataOnChannelOne | custom_components/ezviz_hp7/cpd7/decoder.py:142-156 | only channel 1 carries data, and the first frame never does |
| StreamSpec.PlainExtends | custom_components/ezviz_hp7/cpd7/decoder.py:142-156 | more frames only extend the plaintext |
| Frames.ParseResumes | custom_components/ezviz_hp7/cpd7/decoder.py:107-140 | parsing a prefix and then the residual with the rest gives the frames and residual of the whole |
| Frames.SplitUnique | custom_components/ezviz_hp7/cpd7/decoder.py:121-140 | every input splits in exactly one way into stray bytes, whole frames and a residual |
| Frames.SplitExists | custom_components/ezviz_hp7/cpd7/decoder.py:121-140 | such a split exists and gives the parsed frames |
| Frames.SplitConserves | custom_components/ezviz_hp7/cpd7/decoder.py:121-140 | its pieces and residual are the input's bytes in order |
| Frames.ResidualBounded | custom_components/ezviz_hp7/cpd7/decoder.py:127-136 | the residual holds no whole frame and at most 65538 bytes |
| Frames.EncodedFramesRecovered | custom_components/ezviz_hp7/cpd7/decoder.py:7-8 | any list of encoded frames, with dollar-free junk before each, is recovered exactly |
| Frames.FrameOnTheWire | custom_components/ezviz_hp7/cpd7/decoder.py:121-140 | the byte 24, a channel, two length octets, high first, and that many bytes are parsed as that frame, whatever follows |
| Frames.OtherBytesAreStray | custom_components/ezviz_hp7/cpd7/decoder.py:129-131 | any other byte is skipped once three more have come |
| Frames.IncompleteFrameWaits | custom_components/ezviz_hp7/cpd7/decoder.py:132-136 | a frame whose announced payload is incomplete is left alone |
| KeyframeGate.PendingRefines | custom_components/ezviz_hp7/cpd7/decoder.py:61-67 | the shortened accumulator finds the same first marker and start as the whole plaintext, whenever the bytes kept cover the lookback plus five |
| KeyframeGate.KeepIsTight | custom_components/ezviz_hp7/cpd7/decoder.py:61-67 | one byte less would not do |
| KeyframeGate.RealConstantsSuffice | custom_components/ezviz_hp7/cpd7/decoder.py:61-67 | the real constants leave that room |
| KeyframeGate.GateWaits | custom_components/ezviz_hp7/cpd7/decoder.py:261-264 | without a marker nothing is emitted, however long the plaintext, and the cut accumulator stays sufficient |
| CameraStream.MarkerFreeIsSilent | custom_components/ezviz_hp7/cpd7/decoder.py:229-264 | for a well-formed stream of any length there is no output exactly as long as no marker was sent |
| CameraStream.SilentPastTheCap | custom_components/ezviz_hp7/cpd7/decoder.py:61-67 | the comment's emission at the cap does not happen: for every cipher and handshake that yields a key, a stream with more than 2 MB of plaintext and no output |
| KeyframeGate.GateOpens | custom_components/ezviz_hp7/cpd7/decoder.py:237-252 | the first marker opens the gate at the sync point |
| KeyframeGate.FirstKeyframeStable | custom_components/ezviz_hp7/cpd7/decoder.py:212-251 | the first marker seen incrementally is the first marker of every longer plaintext |
| KeyframeGate.GateExtends | custom_components/ezviz_hp7/cpd7/decoder.py:229-232 | once synced, everything is passed on |
| KeyframeGate.SyncPointExact | custom_components/ezviz_hp7/cpd7/decoder.py:236-249 | the sync point is the nearest pack header within the lookback of the first marker, else the marker |
| KeyframeGate.LookbackInBytes | custom_components/ezviz_hp7/cpd7/decoder.py:58-59 | the last pack header before the first marker is used up to 65536 bytes away, and the marker itself beyond |
| KeyframeGate.GateShape | custom_components/ezviz_hp7/cpd7/decoder.py:236-252 | output is empty exactly while there is no marker; else it starts synced and holds the first marker |
| Markers.EarlierMarkerEndsNoLater | custom_components/ezviz_hp7/cpd7/decoder.py:36-47 | among the four patterns an earlier-starting match never ends later than another |
| Markers.MarkerPatterns | custom_components/ezviz_hp7/cpd7/decoder.py:34-47 | the byte-level predicates are occurrences of the source's patterns |
| ByteStrings.U32BigEndian | custom_components/ezviz_hp7/cpd7/lan_client.py:60-68 | 32-bit fields are written and read with the highest octet first |
| ByteStrings.U16BigEndian | custom_components/ezviz_hp7/cpd7/decoder.py:132-132 | and 16-bit fields |
| Markers.FindKeyframe | custom_components/ezviz_hp7/cpd7/decoder.py:212-227 | the minimum of four searches is the first marker |
| Search.Find | custom_components/ezviz_hp7/cpd7/decoder.py:220-225 | first occurrence or -1 |
| Search.RFind | custom_components/ezviz_hp7/cpd7/decoder.py:245-245 | last occurrence that ends before the bound, or -1 |
| Nonce.TransformNonceReverses | custom_components/ezviz_hp7/cpd7/crypto.py:165-181 | unpack, masks, shifts and pack reverse the four bytes, as the tests fix it |
| Nonce.TransformNonceInvolutive | custom_components/ezviz_hp7/cpd7/crypto.py:165-181 | the transform is its own inverse |
| Nonce.MakeNonce12Bytes | custom_components/ezviz_hp7/cpd7/crypto.py:184-190 | the 12-byte nonce is the wire nonce reversed, then eight zeros |
| Nonce.MakeNonce12Injective | custom_components/ezviz_hp7/cpd7/crypto.py:184-190 | distinct wire nonces give distinct 12-byte nonces |
| Sockets.RecvExact | custom_components/ezviz_hp7/pylocalapi/cas.py:127-135 | under every fragmentation exactly n bytes, or an error and no short result |
| LanClient.RecvResponse | custom_components/ezviz_hp7/cpd7/lan_client.py:88-104 | under every fragmentation exactly header, body and trailer, or an error |
| LanClient.ControlRoundTrip | custom_components/ezviz_hp7/cpd7/lan_client.py:50-85 | parsing a built packet returns its fields, and its XML if and only if the ciphertext does not begin like XML |
| LanClient.PlainReply | custom_components/ezviz_hp7/cpd7/lan_client.py:80-82 | a reply whose body starts with the bytes 3C 3F 78 6D 6C gives its header's fields and exactly that body, whatever follows it |
| LanClient.EncryptedReply | custom_components/ezviz_hp7/cpd7/lan_client.py:80-85 | any other reply gives its fields and the plaintext its body is the encryption of, and fails exactly if there is none |
| LanClient.MalformedReply | custom_components/ezviz_hp7/cpd7/lan_client.py:74-79 | a reply without the magic, or too short for its fields, is refused |
| LanClient.TruncatedReply | custom_components/ezviz_hp7/cpd7/lan_client.py:74-85 | a reply cut short behind its length field is read as if its body were what is there of it |
| LanClient.PacketBytes | custom_components/ezviz_hp7/cpd7/lan_client.py:58-71 | a sent packet byte by byte: magic, version, number, command, flags, length, ciphertext, and the digest of the ciphertext |
| LanClient.CiphertextCanLookLikeXml | custom_components/ezviz_hp7/cpd7/lan_client.py:81-82 | such a ciphertext exists under every cipher and key |
| LanClient.PacketArrives | custom_components/ezviz_hp7/cpd7/lan_client.py:58-71 | a built packet is read off the stream whole, whatever follows |
| LanClient.LanHeaderIsCasHeader | custom_components/ezviz_hp7/cpd7/lan_client.py:60-69 | the LAN header parses under the CAS layout with flags 0xFFFFFFFF and extra 0 |
| LanClient.Cpd7LanClient.Create | custom_components/ezviz_hp7/cpd7/lan_client.py:188-203 | keys of another length than 16 are refused |
| LanClient.Cpd7LanClient.SendCmd | custom_components/ezviz_hp7/cpd7/lan_client.py:222-238 | one request goes out and exactly one response is consumed and parsed |
| LanClient.Cpd7LanClient.Start | custom_components/ezviz_hp7/cpd7/lan_client.py:240-294 | succeeds if and only if it was not started, all three replies arrive and parse, and the session is found; otherwise the first failure is reported and nothing is sent after it; the packets sent are stated; only success keeps the PLAY socket, read exactly past the PLAY response |
| LanClient.Cpd7LanClient.ReadChunk | custom_components/ezviz_hp7/cpd7/lan_client.py:296-306 | the next fragment of the stream; empty only at its end, on timeout, or after close |
| Upstream.PumpUpstream | custom_components/ezviz_hp7/tcp_relay.py:591-638 | reading to the end, the pump hands on the reference output of everything the socket had to deliver, and the buffer is its cache |
| Upstream.HandleChunk | custom_components/ezviz_hp7/tcp_relay.py:615-638 | feeding one read gives exactly the increment of the reference output and the relay's fields the pump step of the transition system uses |
| Upstream.RunSession | custom_components/ezviz_hp7/cpd7/lan_client.py:285-306 | PLAY hand-over: succeeds exactly when the start does, and then, under every fragmentation, the decoder is fed exactly the stream after the PLAY response; otherwise the relay is untouched |
| Upstream.EndSession | custom_components/ezviz_hp7/tcp_relay.py:511-536 | the relay forgets session and event but not the viewer, no timer is left exactly if all were remembered, and the client is closed if there was one, so that nothing is read from it any more |
| BlockCiphers.DecryptInvertsEncrypt | custom_components/ezviz_hp7/cpd7/lan_client.py:50-55 | decryption accepts exactly the ciphertexts of a plaintext, and returns it |
| BlockCiphers.CbcDecryptsEncrypted | custom_components/ezviz_hp7/cpd7/lan_client.py:50-55 | cipher block chaining round trip |
| BlockCiphers.CbcEncryptsDecrypted | custom_components/ezviz_hp7/cpd7/lan_client.py:50-55 | and the other way round |
| BlockCiphers.CbcEncryptBlocks | custom_components/ezviz_hp7/cpd7/lan_client.py:50-51 | section 6.2's equations: each ciphertext block enciphers its plaintext block exclusive-or'd, as bits, with the ciphertext block before, the first with the vector |
| BlockCiphers.CbcDecryptBlocks | custom_components/ezviz_hp7/cpd7/lan_client.py:54-55 | and each plaintext block is the deciphered block exclusive-or'd with the ciphertext block before, the first with the vector |
| BlockCiphers.EncryptedBlocks | custom_components/ezviz_hp7/cpd7/lan_client.py:50-51 | both clients' ciphertexts chain the padded plaintext from ASCII 01234567 and eight zeros |
| BlockCiphers.PadBytes | custom_components/ezviz_hp7/cpd7/lan_client.py:50-51 | between one and sixteen bytes are added, up to a multiple of sixteen, each saying how many there are |
| BlockCiphers.UnpadInvertsPad | custom_components/ezviz_hp7/cpd7/lan_client.py:54-55 | unpadding accepts exactly the padded strings |
| Cas.RecvCasResponse | custom_components/ezviz_hp7/pylocalapi/cas.py:138-154 | under every fragmentation the first packet ahead and nothing more; bad magic after 32 bytes; an early end gives an error and no short body |
| Cas.ReceiveMessages | custom_components/ezviz_hp7/pylocalapi/cas.py:118-154 | repeated receiving returns any list of built packets in order and never reads past the last |
| Cas.HeaderRoundTrip | custom_components/ezviz_hp7/pylocalapi/cas.py:80-110 | parsing a made header returns its fields |
| Cas.HeaderParsedExactly | custom_components/ezviz_hp7/pylocalapi/cas.py:157-169 | a header is accepted by its 32 bytes and magic alone, and its five fields are read at their offsets, the highest octet first |
| Cas.PacketBytes | custom_components/ezviz_hp7/pylocalapi/cas.py:80-124 | a built packet byte by byte, with flags 0 and the digest of the body as its tail |
| Cas.PacketIsRead | custom_components/ezviz_hp7/pylocalapi/cas.py:118-154 | a packet is read back whatever follows it |
| Cas.NestedTransferRoundTrip | custom_components/ezviz_hp7/pylocalapi/cas.py:320-388 | the outer packet's command is 0x2005; the inner plaintext comes out of both packets if and only if the inner flags tell the truth about the encryption |
| Cas.UnwrapExact | custom_components/ezviz_hp7/pylocalapi/cas.py:344-388 | the slicing for every outer response: too short under 64 bytes behind the outer XML, a bad inner magic refused, decrypted exactly when the inner flags are 0xFFFFFFFF |

## Left out

- Home Assistant entities, configuration, translations and the cloud client: wrappers and caches beside the stream path.
- ffmpeg handling, logging, statistics (`_session_bytes` among them), the no-payload watchdog, the state listener.
- XML builders, regular expressions, TLS, socket options, and the connection of sockets: the sockets are given.
- ECDH, DER parsing, AES internals and MD5: `deriveKey` is any function from the first payload to an optional key.
- Integrity: an MD5 tail mismatch is only logged and the 32-byte trailer is only cut off, so nothing is claimed.
- Binding and closing the server (`async_start`, the first half of `async_stop`): viewers may arrive at any time.
- Cancellation of a handler inside its cleanup or a teardown; cancellation before that is the label `Abandon`.
- How long a timer runs, such as the five seconds after a viewer: only whether its delay is positive matters.
- Thread-level effects of the executor: a cancelled pump reads no more.
- Exceptions other than a broken pipe while a chunk is written: the pump task may end at any time instead.
- Relay control steps are modelled on values in `Relay`; `RelayObject` has the in-place updates of the shared fields, but
  not the coroutines themselves.
- Upstream.PumpUpstream: one session without interference; interference is the subject of `Relay`.
- LanClient.Cpd7LanClient.Start: closing the INIT and INVITE sockets, and the PLAY socket after an error, is not shown.
- `asyncio.Task.cancel` of a start in progress: the thread goes on, and counts as completing when it is abandoned.
