/** A connected socket under arbitrary fragmentation. */
module Sockets {
  import opened ByteStrings

  /** What happens once every byte the peer sends in time has been read. */
  datatype Ending = PeerCloses | Silence

  datatype Error = ConnectionClosed | TimedOut | BadMagic | BadCiphertext | TooShort | NoSession | AlreadyStarted

  datatype Result<+T> = Ok(value: T) | Err(error: Error)

  datatype Received = Data(bytes: Bytes) | Timeout

  class Socket {
    /** Everything the peer sends, and how far it has been read. */
    const incoming: Bytes
    const ending: Ending
    var pos: nat
    var sent: Bytes

    constructor (incoming: Bytes, ending: Ending)
      ensures this.incoming == incoming && this.ending == ending && pos == 0 && sent == []
    {
      this.incoming, this.ending := incoming, ending;
      pos, sent := 0, [];
    }

    ghost predicate Valid()
      reads this
    {
      pos <= |incoming|
    }

    /** The bytes still to come. */
    function Ahead(): Bytes
      requires Valid()
      reads this
    {
      incoming[pos..]
    }

    /** Any non-empty prefix of at most ``n`` bytes; nothing once the peer has closed. */
    method Recv(n: nat) returns (r: Received)
      requires Valid() && n > 0
      modifies `pos
      ensures Valid()
      ensures old(pos) == |incoming| ==> pos == old(pos) && r == if ending.PeerCloses? then Data([]) else Timeout
      ensures old(pos) < |incoming| ==>
                && r.Data? && r.bytes != [] && |r.bytes| <= n
                && pos == old(pos) + |r.bytes| && r.bytes == incoming[old(pos)..pos]
    {
      if pos == |incoming| {
        return if ending.PeerCloses? then Data([]) else Timeout;
      }
      assert pos + 1 <= |incoming|;
      var k: nat :| 1 <= k <= n && pos + k <= |incoming|;
      r := Data(incoming[pos..pos + k]);
      pos := pos + k;
    }

    method SendAll(data: Bytes)
      modifies `sent
      ensures sent == old(sent) + data
    {
      sent := sent + data;
    }
  }

  /** The error a read gets past the last byte. */
  function EndError(ending: Ending): Error
  {
    if ending.PeerCloses? then ConnectionClosed else TimedOut
  }

  /** cas.py:127-135: exactly ``n`` bytes, or an error and no short result. */
  method RecvExact(sock: Socket, n: nat) returns (r: Result<Bytes>)
    requires sock.Valid()
    modifies sock`pos
    ensures sock.Valid()
    ensures |old(sock.Ahead())| >= n ==> r == Ok(old(sock.Ahead())[..n]) && sock.pos == old(sock.pos) + n
    ensures |old(sock.Ahead())| < n ==> r == Err(EndError(sock.ending)) && sock.pos == |sock.incoming|
  {
    var out: Bytes := [];
    while |out| < n
      invariant sock.Valid() && sock.pos == old(sock.pos) + |out| && |out| <= n
      invariant out == sock.incoming[old(sock.pos)..sock.pos]
      decreases n - |out|
    {
      var chunk := sock.Recv(n - |out|);
      if chunk.Timeout? {
        return Err(TimedOut);
      }
      if chunk.bytes == [] {
        return Err(ConnectionClosed);
      }
      out := out + chunk.bytes;
    }
    assert out == old(sock.Ahead())[..n];
    return Ok(out);
  }
}
