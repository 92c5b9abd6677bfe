/** One whole session, from the PLAY hand-over through the decoder into the relay's buffer (tcp_relay.py:591-638). */
module Upstream {
  import opened ByteStrings
  import opened RelayBuffer
  import opened Sockets
  import opened StreamSpec
  import opened StreamDecoding
  import opened LanClient
  import opened RelayObject
  import RelayShared

  /** The bytes fed are those read since ``start``; what was pumped is their reference output, cached by the buffer. */
  ghost predicate InStep(sock: Socket, start: nat, decoder: StreamDecoder, relay: CpdMpegPsRelay, pumped: Bytes)
    reads sock, decoder, relay
  {
    && sock.Valid() && start <= sock.pos
    && decoder.Valid() && decoder.wire == sock.incoming[start..sock.pos]
    && decoder.taken == pumped == Reference(decoder.crypto, decoder.wire)
    && IsCacheOf(relay.buffer, pumped)
  }

  /** Decode a read and hand it on: what a pump step of the transition system does to decoder and shared fields. */
  method HandleChunk(decoder: StreamDecoder, relay: CpdMpegPsRelay, raw: Bytes, ghost pumped: Bytes)
    returns (plain: Bytes)
    requires IsChunk(raw) && decoder.Valid()
    requires decoder.taken == pumped == Reference(decoder.crypto, decoder.wire)
    requires IsCacheOf(relay.buffer, pumped)
    modifies decoder, relay
    ensures decoder.Valid() && decoder.wire == old(decoder.wire) + raw
    ensures decoder.taken == pumped + plain == Reference(decoder.crypto, decoder.wire)
    ensures plain == Increment(decoder.crypto, old(decoder.wire), raw)
    ensures relay.View() == if plain == [] then old(relay.View()) else RelayShared.AbsorbChunk(old(relay.View()), plain)
    ensures IsCacheOf(relay.buffer, pumped + plain)
  {
    hide IsCacheOf, Reference, Absorbed, KeyframeComplete, StreamDecoder.Valid;
    ghost var before := decoder.wire;
    ReferenceExtends(decoder.crypto, before, raw);
    decoder.Feed(raw);
    plain := decoder.Take();
    assert (pumped + plain)[|pumped|..] == plain;
    if plain == [] {
      assert pumped + plain == pumped;
      return;
    }
    CacheAbsorbed(relay.buffer, pumped, plain);
    relay.AbsorbChunk(plain);
  }

  /** One turn of the loop. */
  method PumpOnce(lan: Cpd7LanClient, sock: Socket, decoder: StreamDecoder, relay: CpdMpegPsRelay,
                  ghost start: nat, ghost pumped: Bytes) returns (more: bool, plain: Bytes)
    requires lan.playSock == sock && !lan.closed && InStep(sock, start, decoder, relay, pumped)
    modifies sock, decoder, relay
    ensures InStep(sock, start, decoder, relay, pumped + plain)
    ensures if more then sock.pos > old(sock.pos) else sock.pos == |sock.incoming|
  {
    hide IsCacheOf, Reference, StreamDecoder.Valid;
    ghost var before := sock.pos;
    var raw := lan.ReadChunk();
    if raw == [] {
      assert pumped + [] == pumped;
      return false, [];
    }
    SlicesJoin(sock.incoming, start, before, sock.pos);
    plain := HandleChunk(decoder, relay, raw, pumped);
    more := true;
  }

  /**
   The pump's loop, up to the end of the stream.  ``pumped`` is what it handed on, chunk after chunk: the reference
   output of everything the socket still had to deliver, of which the buffer is a trimmed cache.
   */
  method PumpUpstream(lan: Cpd7LanClient, sock: Socket, decoder: StreamDecoder, relay: CpdMpegPsRelay)
    returns (pumped: Bytes)
    requires lan.playSock == sock && !lan.closed && sock.Valid()
    requires decoder.Valid() && decoder.wire == [] && decoder.taken == [] && relay.buffer == []
    modifies sock, decoder, relay
    ensures sock.Valid() && sock.pos == |sock.incoming|
    ensures decoder.Valid() && decoder.wire == old(sock.Ahead())
    ensures pumped == Reference(decoder.crypto, old(sock.Ahead()))
    ensures IsCacheOf(relay.buffer, pumped)
  {
    hide IsCacheOf, Reference;
    ghost var start := sock.pos;
    pumped := [];
    NothingDecodedYet(decoder.crypto);
    EmptyCache();
    var more := true;
    while more
      invariant InStep(sock, start, decoder, relay, pumped)
      invariant !more ==> sock.pos == |sock.incoming|
      decreases more, |sock.incoming| - sock.pos
    {
      var plain: Bytes;
      more, plain := PumpOnce(lan, sock, decoder, relay, start, pumped);
      pumped := pumped + plain;
    }
  }

  /** The end of a session: the relay forgets it, its client is closed, and nothing is read from it any more. */
  method EndSession(lan: Cpd7LanClient, relay: CpdMpegPsRelay) returns (task: Option<nat>)
    modifies lan`closed, lan`playSock, relay
    ensures task == old(relay.pumpTask) && relay.writer == old(relay.writer)
    ensures relay.buffer == [] && relay.lan.None? && relay.pumpTask.None? && !relay.keyframeSeen
    ensures old(RelayShared.Remembered(relay.View())) <==> relay.timers == {}
    ensures if old(relay.lan).Some? then lan.closed && lan.playSock == null
            else lan.closed == old(lan.closed) && lan.playSock == old(lan.playSock)
  {
    var client: Option<nat>;
    task, client := relay.TeardownUpstream();
    if client.Some? {
      lan.Close();
    }
  }

  /** The hand-over: under every fragmentation the decoder is fed exactly the stream after the PLAY response. */
  method RunSession(lan: Cpd7LanClient, crypto: StreamCrypto, relay: CpdMpegPsRelay,
                    ctrl: Socket, invite: Socket, play: Socket, initXml: Bytes, inviteXml: Bytes,
                    findSession: Bytes -> Option<nat>, playXml: nat -> Bytes) returns (r: Result<Bytes>)
    requires !lan.closed && ctrl.Valid() && invite.Valid() && play.Valid()
    requires ctrl != invite && invite != play && ctrl != play
    requires |initXml| < 0x1000_0000 && |inviteXml| < 0x1000_0000 && forall n: nat :: |playXml(n)| < 0x1000_0000
    requires relay.buffer == []
    modifies lan, relay, ctrl, invite, play
    ensures var invited := FoundSession(old(Reply(lan.cipher, lan.aesKey, invite)), findSession);
            r.Ok? <==> old(lan.playSock) == null && old(Reply(lan.cipher, lan.aesKey, ctrl)).Ok? && invited.Ok?
                       && old(Reply(lan.cipher, lan.aesKey, play)).Ok?
    ensures r.Err? ==> unchanged(relay)
    ensures r.Ok? ==>
              var ahead := old(play.Ahead());
              && Arrived(ahead)
              && r.value == Reference(crypto, ahead[ResponseSize(ahead).value..])
              && Snapshot(relay.buffer) == Snapshot(r.value)
  {
    hide Reference, Snapshot, IsCacheOf, ParseResponse, FoundSession, StreamDecoder.Valid;
    var started := lan.Start(ctrl, invite, play, initXml, inviteXml, findSession, playXml);
    if started.Err? {
      return Err(started.error);
    }
    var decoder := new StreamDecoder(crypto);
    assert play.Ahead() == old(play.Ahead())[ResponseSize(old(play.Ahead())).value..];
    var pumped := PumpUpstream(lan, play, decoder, relay);
    SnapshotAgrees(relay.buffer, pumped);
    return Ok(pumped);
  }
}
