/** The incremental decoder (decoder.py:74-268), proved against the reference output of the whole stream. */
module StreamDecoding {
  import opened ByteStrings
  import opened Frames
  import opened KeyframeGate
  import Markers
  import opened StreamSpec

  class StreamDecoder {
    const crypto: StreamCrypto

    var buf: Bytes
    var chacha20Key: Option<Bytes>
    var firstChunkConsumed: bool
    var mpegStarted: bool
    var pending: Bytes
    var out: Bytes

    /** Everything ever fed, every frame handled, all plaintext absorbed, everything ever taken. */
    ghost var wire: Bytes
    ghost var handled: seq<Frame>
    ghost var plain: Bytes
    ghost var taken: Bytes

    /** The accumulator and the output agree with the plaintext seen so far. */
    ghost predicate GateValid()
      reads `mpegStarted, `plain, `pending, `taken, `out
    {
      GateState(plain, mpegStarted, pending, taken + out)
    }

    /** Holds between any two chunks. */
    ghost predicate ChunkValid()
      reads this
    {
      && Parse(wire) == Parsed(handled + Parse(buf).frames, Parse(buf).rest)
      && firstChunkConsumed == (handled != [])
      && chacha20Key == SessionKey(crypto, handled)
      && plain == PlainOf(crypto, handled)
      && GateValid()
    }

    /** Holds between any two calls. */
    ghost predicate Valid()
      reads this
    {
      ChunkValid() && Stuck(buf)
    }

    constructor (crypto: StreamCrypto)
      ensures Valid() && this.crypto == crypto
      ensures wire == [] && taken == []
    {
      this.crypto := crypto;
      buf, pending, out := [], [], [];
      chacha20Key, firstChunkConsumed, mpegStarted := None, false, false;
      wire, handled, plain, taken := [], [], [], [];
      GateAtStart();
    }

    /** The state between calls is determined by the bytes fed so far; memory stays bounded before the sync. */
    lemma StateFollowsWire()
      requires Valid()
      ensures buf == Parse(wire).rest && |buf| <= 65538
      ensures handled == Parse(wire).frames
      ensures taken + out == Reference(crypto, wire)
      ensures |pending| <= 2097152
      ensures !mpegStarted ==> |pending| <= |plain| && pending == plain[|plain| - |pending|..]
      ensures !mpegStarted && |pending| < |plain| ==> |pending| >= 1048576
    {
      assert Parse(buf) == Parsed([], buf);
      ResidualBounded(wire);
    }

    method Feed(data: Bytes)
      requires Valid()
      modifies this
      ensures Valid()
      ensures wire == old(wire) + data && taken == old(taken)
      ensures taken + out == Reference(crypto, wire)
    {
      hide Reference, Parse, PlainOf, GateState, SessionKey;
      StateFollowsWire();
      if data == [] {
        return;
      }
      ParseResumes(wire, data);
      buf := buf + data;
      wire := wire + data;
      var more := ConsumeOneChunk();
      while more
        invariant ChunkValid()
        invariant wire == old(wire) + data && taken == old(taken)
        invariant !more ==> Stuck(buf)
        decreases more, |buf|
      {
        more := ConsumeOneChunk();
      }
      StateFollowsWire();
    }

    method Take() returns (r: Bytes)
      requires Valid()
      modifies this
      ensures Valid()
      ensures r == old(out) && out == []
      ensures wire == old(wire) && taken == old(taken) + r
      ensures taken == Reference(crypto, wire)
    {
      hide Reference, Parse, PlainOf, GateState, SessionKey;
      StateFollowsWire();
      r := out;
      out := [];
      taken := taken + r;
      assert taken + out == taken;
    }

    method ConsumeOneChunk() returns (more: bool)
      requires ChunkValid()
      modifies this
      ensures ChunkValid()
      ensures wire == old(wire) && taken == old(taken)
      ensures more ==> |buf| < old(|buf|)
      ensures !more ==> Stuck(buf) && unchanged(this)
    {
      hide SessionKey, PlainOf, StreamDecoder.GateValid;
      if |buf| < 4 {
        return false;
      }
      if buf[0] != DOLLAR {
        buf := buf[1..];
        return true;
      }
      var total := 4 + PayloadLen(buf);
      if |buf| < total {
        return false;
      }
      var frame := Frame(buf[1], buf[4..total]);
      ghost var tail := Parse(buf[total..]).frames;
      assert handled + ([frame] + tail) == (handled + [frame]) + tail;
      buf := buf[total..];
      HandleChunk(frame);
      return true;
    }

    method HandleChunk(frame: Frame)
      requires firstChunkConsumed == (handled != []) && chacha20Key == SessionKey(crypto, handled)
      requires plain == PlainOf(crypto, handled) && GateValid()
      modifies `firstChunkConsumed, `chacha20Key, `handled, `plain, `pending, `mpegStarted, `out
      ensures handled == old(handled) + [frame]
      ensures firstChunkConsumed && chacha20Key == SessionKey(crypto, handled)
      ensures plain == PlainOf(crypto, handled) && GateValid()
    {
      hide GateState, DecryptDataChunk;
      handled := handled + [frame];
      if !firstChunkConsumed {
        firstChunkConsumed := true;
        chacha20Key := crypto.deriveKey(frame.payload);
        assert handled[1..] == [];
        return;
      }
      PlainSnoc(crypto, old(handled), frame);
      if frame.chan != 0x01 {
        return;
      }
      if chacha20Key.None? {
        return;
      }
      var chunk := DecryptDataChunk(crypto, chacha20Key.value, frame.payload);
      if chunk != [] {
        AbsorbPlain(chunk);
      }
    }

    method AbsorbPlain(chunk: Bytes)
      requires GateValid()
      modifies `plain, `pending, `mpegStarted, `out
      ensures GateValid()
      ensures plain == old(plain) + chunk
    {
      hide GateState, SyncPoint;
      ghost var seen, emitted := plain, taken + out;
      plain := plain + chunk;
      if mpegStarted {
        GateStartedHoldsNothing(seen, pending, emitted);
        GateStaysOpen(seen, emitted, chunk);
        out := out + chunk;
        assert emitted + chunk == taken + out;
        return;
      }
      ghost var held := pending;
      pending := pending + chunk;
      var start := FindStart(pending);
      if start >= 0 {
        GateOpens(seen, held, emitted, chunk, start);
        mpegStarted := true;
        out := out + pending[start..];
        assert taken + out == pending[start..];
        pending := [];
        return;
      }
      GateWaits(seen, held, emitted, chunk);
      if |pending| > MAX_PRE_KEYFRAME_BUF {
        pending := pending[|pending| - PRE_KEYFRAME_KEEP..];
      }
    }

    /** The searches of _absorb_plain: the offset at which output starts, or -1. */
    static method FindStart(buf: Bytes) returns (start: int)
      ensures start == SyncPoint(buf, MAX_PACK_LOOKBACK)
    {
      var kfOff := Markers.FindKeyframe(buf);
      if kfOff < 0 {
        return -1;
      }
      var packOff := Markers.RFindPack(buf, kfOff);
      if packOff >= 0 && kfOff - packOff <= MAX_PACK_LOOKBACK {
        start := packOff;
      } else {
        start := kfOff;
      }
    }
  }

  datatype Call = Feed(data: Bytes) | Take

  function Fed(calls: seq<Call>): Bytes
  {
    if calls == [] then []
    else
      var last := calls[|calls| - 1];
      Fed(calls[..|calls| - 1]) + (if last.Feed? then last.data else [])
  }

  /** What a take at each call has to complete: the reference output of the bytes fed so far. */
  function Wanted(crypto: StreamCrypto, calls: seq<Call>): seq<Bytes>
  {
    seq(|calls|, i requires 0 <= i < |calls| => Reference(crypto, Fed(calls[..i + 1])))
  }

  /** A feed returns nothing; after a take, everything taken so far is what was wanted. */
  predicate AgreesAt(call: Call, outputs: seq<Bytes>, wanted: Bytes)
    requires outputs != []
  {
    if call.Feed? then outputs[|outputs| - 1] == [] else Flatten(outputs) == wanted
  }

  ghost predicate TakesAgree(calls: seq<Call>, outputs: seq<Bytes>, wanted: seq<Bytes>)
    requires |outputs| <= |calls| == |wanted|
  {
    forall i | 0 <= i < |outputs| :: AgreesAt(calls[i], outputs[..i + 1], wanted[i])
  }

  lemma TakesAgreeSnoc(calls: seq<Call>, outputs: seq<Bytes>, wanted: seq<Bytes>, r: Bytes)
    requires |outputs| < |calls| == |wanted| && TakesAgree(calls, outputs, wanted)
    requires AgreesAt(calls[|outputs|], outputs + [r], wanted[|outputs|])
    ensures TakesAgree(calls, outputs + [r], wanted)
  {
    var all, k := outputs + [r], |outputs|;
    forall i | 0 <= i < |all| ensures AgreesAt(calls[i], all[..i + 1], wanted[i]) {
      if i < k {
        assert all[..i + 1] == outputs[..i + 1];
      } else {
        assert all[..i + 1] == all;
      }
    }
  }

  lemma FedSnoc(calls: seq<Call>, k: nat)
    requires k < |calls|
    ensures Fed(calls[..k + 1]) == Fed(calls[..k]) + (if calls[k].Feed? then calls[k].data else [])
  {
    assert calls[..k + 1][..k] == calls[..k];
  }

  method Perform(d: StreamDecoder, call: Call) returns (r: Bytes)
    requires d.Valid()
    modifies d
    ensures d.Valid()
    ensures d.wire == old(d.wire) + (if call.Feed? then call.data else [])
    ensures d.taken == old(d.taken) + r
    ensures if call.Feed? then r == [] else d.taken == Reference(d.crypto, d.wire)
  {
    match call {
      case Feed(data) =>
        d.Feed(data);
        r := [];
      case Take =>
        r := d.Take();
    }
  }

  /** However the stream is cut into calls, the takes together give the reference output of the bytes fed so far. */
  method DecodeInPieces(crypto: StreamCrypto, calls: seq<Call>) returns (outputs: seq<Bytes>)
    ensures |outputs| == |calls|
    ensures TakesAgree(calls, outputs, Wanted(crypto, calls))
  {
    hide StreamDecoder.Valid, Reference;
    var d := new StreamDecoder(crypto);
    ghost var wanted := Wanted(crypto, calls);
    outputs := [];
    for k := 0 to |calls|
      invariant d.Valid() && d.crypto == crypto && fresh(d)
      invariant |outputs| == k
      invariant d.wire == Fed(calls[..k]) && d.taken == Flatten(outputs)
      invariant TakesAgree(calls, outputs, wanted)
    {
      FedSnoc(calls, k);
      var r := Perform(d, calls[k]);
      FlattenSnoc(outputs, r);
      TakesAgreeSnoc(calls, outputs, wanted, r);
      outputs := outputs + [r];
    }
  }
}
