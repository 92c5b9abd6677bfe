/** The LAN client: encrypted control packets and the PLAY socket (cpd7/lan_client.py). */
module LanClient {
  import opened ByteStrings
  import opened BlockCiphers
  import opened Sockets
  import Cas

  const CMD_INIT: u32 := 0x2013
  const CMD_INVITE: u32 := 0x2011
  const CMD_PLAY: u32 := 0x3105
  const HEADER_LEN := 32
  const MD5_TRAILER_LEN := 32
  const MAGIC: Bytes := [0x9E, 0xBA, 0xAC, 0xE9]

  /** ``<?xml``. */
  const XML_START: Bytes := [0x3C, 0x3F, 0x78, 0x6D, 0x6C]

  function BuildHeader(seqNo: u32, cmd: u32, bodyLen: u32): (r: Bytes)
    ensures |r| == HEADER_LEN
  {
    MAGIC + [0x01, 0x00, 0x00, 0x00] + PackU32(seqNo) + [0, 0, 0, 0]
    + PackU32(cmd) + [0xFF, 0xFF, 0xFF, 0xFF] + PackU32(bodyLen) + [0, 0, 0, 0]
  }

  function BuildPacket(c: BlockCipher, md5: Cas.Digest, seqNo: u32, cmd: u32, xml: Bytes, key: Bytes): (r: Bytes)
    requires |Encrypt(c, key, xml)| < 0x1_0000_0000
  {
    var body := Encrypt(c, key, xml);
    BuildHeader(seqNo, cmd, |body|) + body + md5(body)
  }

  datatype Meta = Meta(seqNo: u32, cmd: u32, bodyLen: u32)

  datatype Response = Response(meta: Meta, plain: Bytes)

  function ParseResponse(c: BlockCipher, wire: Bytes, key: Bytes): Result<Response>
  {
    if Slice(wire, 0, 4) != MAGIC then Err(BadMagic)
    else if |wire| < 28 then Err(TooShort)
    else
      var meta := Meta(UnpackU32(wire[8..12]), UnpackU32(wire[16..20]), UnpackU32(wire[24..28]));
      var body := Slice(wire, HEADER_LEN, HEADER_LEN + meta.bodyLen);
      if XML_START <= body then Ok(Response(meta, body))
      else
        match Decrypt(c, key, body)
        case None => Err(BadCiphertext)
        case Some(plain) => Ok(Response(meta, plain))
  }

  // The wire, byte by byte.

  /** What is sent: magic, version, number, command, flags and length, then the ciphertext, then its digest. */
  lemma PacketBytes(c: BlockCipher, md5: Cas.Digest, seqNo: u32, cmd: u32, xml: Bytes, key: Bytes)
    requires |Encrypt(c, key, xml)| < 0x1_0000_0000
    ensures var ct, wire := Encrypt(c, key, xml), BuildPacket(c, md5, seqNo, cmd, xml, key);
            && |wire| == 32 + |ct| + 32
            && wire[..8] == [0x9E, 0xBA, 0xAC, 0xE9, 0x01, 0x00, 0x00, 0x00]
            && BigEndianAt(wire, 8) == seqNo && wire[12..16] == [0, 0, 0, 0]
            && BigEndianAt(wire, 16) == cmd && wire[20..24] == [0xFF, 0xFF, 0xFF, 0xFF]
            && BigEndianAt(wire, 24) == |ct| && wire[28..32] == [0, 0, 0, 0]
            && wire[32..32 + |ct|] == ct && wire[32 + |ct|..] == md5(ct)
  {
    var ct, wire := Encrypt(c, key, xml), BuildPacket(c, md5, seqNo, cmd, xml, key);
    assert wire[8..12] == PackU32(seqNo) && wire[16..20] == PackU32(cmd) && wire[24..28] == PackU32(|ct|);
    PackedAt(wire, 8, seqNo);
    PackedAt(wire, 16, cmd);
    PackedAt(wire, 24, |ct|);
  }

  /** The fields a header holds. */
  ghost predicate HeaderHolds(header: Bytes, meta: Meta)
  {
    && |header| == 32 && header[..4] == [0x9E, 0xBA, 0xAC, 0xE9]
    && BigEndianAt(header, 8) == meta.seqNo && BigEndianAt(header, 16) == meta.cmd
    && BigEndianAt(header, 24) == meta.bodyLen
  }

  /** The body starts with the five characters of an XML declaration. */
  predicate StartsLikeXml(body: Bytes)
  {
    |body| >= 5 && body[..5] == [0x3C, 0x3F, 0x78, 0x6D, 0x6C]
  }

  lemma BodyOf(header: Bytes, meta: Meta, body: Bytes, tail: Bytes)
    requires HeaderHolds(header, meta) && |body| == meta.bodyLen
    ensures var wire := header + body + tail;
            && |wire| >= 32 && Slice(wire, 0, 4) == [0x9E, 0xBA, 0xAC, 0xE9]
            && Meta(UnpackU32(wire[8..12]), UnpackU32(wire[16..20]), UnpackU32(wire[24..28])) == meta
            && Slice(wire, 32, 32 + meta.bodyLen) == body
  {
    var wire := header + body + tail;
    assert wire[..4] == header[..4] && wire[8..12] == header[8..12];
    assert wire[16..20] == header[16..20] && wire[24..28] == header[24..28];
    UnpackedAt(header, 8);
    UnpackedAt(header, 16);
    UnpackedAt(header, 24);
    assert wire[32..32 + |body|] == body;
  }

  /** A reply in plain XML gives its fields and exactly its body, whatever follows. */
  lemma PlainReply(c: BlockCipher, key: Bytes, header: Bytes, meta: Meta, body: Bytes, tail: Bytes)
    requires HeaderHolds(header, meta) && |body| == meta.bodyLen && StartsLikeXml(body)
    ensures ParseResponse(c, header + body + tail, key) == Ok(Response(meta, body))
  {
    BodyOf(header, meta, body, tail);
  }

  /** Any other reply gives its fields and the plaintext its body is the encryption of, or fails if there is none. */
  lemma EncryptedReply(c: BlockCipher, key: Bytes, header: Bytes, meta: Meta, body: Bytes, tail: Bytes, plain: Bytes)
    requires HeaderHolds(header, meta) && |body| == meta.bodyLen && !StartsLikeXml(body)
    ensures var r := ParseResponse(c, header + body + tail, key);
            && (r == Ok(Response(meta, plain)) <==> body == Encrypt(c, key, plain))
            && (r.Ok? ==> r.value.meta == meta && body == Encrypt(c, key, r.value.plain))
            && (r.Err? ==> r.error == BadCiphertext)
  {
    BodyOf(header, meta, body, tail);
    assert XML_START <= body ==> body[..5] == XML_START;
    DecryptInvertsEncrypt(c, key, body, plain);
    match Decrypt(c, key, body)
    case None =>
    case Some(p) => DecryptInvertsEncrypt(c, key, body, p);
  }

  /** A reply cut short behind its length field is read as if its body were what is there of it. */
  lemma TruncatedReply(c: BlockCipher, key: Bytes, wire: Bytes, plain: Bytes)
    requires |wire| >= 28 && wire[..4] == [0x9E, 0xBA, 0xAC, 0xE9] && |wire| < 32 + BigEndianAt(wire, 24)
    ensures var body := if |wire| <= 32 then [] else wire[32..];
            var meta := Meta(BigEndianAt(wire, 8), BigEndianAt(wire, 16), BigEndianAt(wire, 24));
            var r := ParseResponse(c, wire, key);
            && (StartsLikeXml(body) ==> r == Ok(Response(meta, body)))
            && (!StartsLikeXml(body) ==> (r == Ok(Response(meta, plain)) <==> body == Encrypt(c, key, plain)))
            && (r.Err? ==> r.error == BadCiphertext)
  {
    hide UnpackU32, Decrypt, Encrypt;
    UnpackedAt(wire, 8);
    UnpackedAt(wire, 16);
    UnpackedAt(wire, 24);
    var body := if |wire| <= 32 then [] else wire[32..];
    assert Slice(wire, 32, 32 + BigEndianAt(wire, 24)) == body;
    assert XML_START <= body ==> body[..5] == XML_START;
    DecryptInvertsEncrypt(c, key, body, plain);
  }

  /** A reply without the magic, or too short to hold the length, is refused. */
  lemma MalformedReply(c: BlockCipher, key: Bytes, wire: Bytes)
    requires |wire| < 28 || wire[..4] != [0x9E, 0xBA, 0xAC, 0xE9]
    ensures ParseResponse(c, wire, key)
         == Err(if |wire| < 4 || wire[..4] != [0x9E, 0xBA, 0xAC, 0xE9] then BadMagic else TooShort)
  {
  }

  /** The size the header ahead announces; None while the header is incomplete. */
  function ResponseSize(ahead: Bytes): Option<nat>
  {
    if |ahead| < HEADER_LEN then None
    else Some(HEADER_LEN + UnpackU32(ahead[24..28]) + MD5_TRAILER_LEN)
  }

  /** The response ahead is complete. */
  predicate Arrived(ahead: Bytes)
  {
    ResponseSize(ahead).Some? && |ahead| >= ResponseSize(ahead).value
  }

  /** What a request on this socket is answered with. */
  function Reply(c: BlockCipher, key: Bytes, sock: Socket): Result<Response>
    requires sock.Valid()
    reads sock
  {
    if Arrived(sock.Ahead()) then ParseResponse(c, sock.Ahead()[..ResponseSize(sock.Ahead()).value], key)
    else Err(EndError(sock.ending))
  }

  /** The session an INVITE reply announces. */
  function FoundSession(reply: Result<Response>, findSession: Bytes -> Option<nat>): Result<nat>
  {
    match reply
    case Err(e) => Err(e)
    case Ok(response) =>
      match findSession(response.plain)
      case None => Err(NoSession)
      case Some(session) => Ok(session)
  }

  /** Under every fragmentation: exactly header, body and trailer are read, or an error and no short response. */
  method RecvResponse(sock: Socket) returns (r: Result<Bytes>)
    requires sock.Valid()
    modifies sock`pos
    ensures sock.Valid()
    ensures var ahead := old(sock.Ahead());
            if Arrived(ahead) then
              var size := ResponseSize(ahead).value;
              r == Ok(ahead[..size]) && sock.pos == old(sock.pos) + size
            else r == Err(EndError(sock.ending)) && sock.pos == |sock.incoming|
  {
    ghost var ahead, start := sock.Ahead(), sock.pos;
    var header: Bytes := [];
    while |header| < HEADER_LEN
      invariant sock.Valid() && sock.pos == start + |header| && |header| <= HEADER_LEN
      invariant header == ahead[..|header|]
      decreases HEADER_LEN - |header|
    {
      var chunk := sock.Recv(HEADER_LEN - |header|);
      if chunk.Timeout? {
        return Err(TimedOut);
      }
      if chunk.bytes == [] {
        return Err(ConnectionClosed);
      }
      header := header + chunk.bytes;
    }
    assert header[24..28] == ahead[24..28];
    var total := UnpackU32(header[24..28]) + MD5_TRAILER_LEN;
    var rest: Bytes := [];
    while |rest| < total
      invariant sock.Valid() && sock.pos == start + HEADER_LEN + |rest| && |rest| <= total
      invariant rest == ahead[HEADER_LEN..HEADER_LEN + |rest|]
      decreases total - |rest|
    {
      var chunk := sock.Recv(total - |rest|);
      if chunk.Timeout? {
        return Err(TimedOut);
      }
      if chunk.bytes == [] {
        return Err(ConnectionClosed);
      }
      rest := rest + chunk.bytes;
    }
    assert header + rest == ahead[..HEADER_LEN + total];
    return Ok(header + rest);
  }

  /** The LAN header is a CAS header with flags 0xFFFFFFFF and extra 0. */
  lemma LanHeaderIsCasHeader(seqNo: u32, cmd: u32, bodyLen: u32)
    ensures BuildHeader(seqNo, cmd, bodyLen)
         == Cas.MakeCasHeader(Cas.Header(seqNo, cmd, Cas.ENCRYPTED_FLAGS, bodyLen, 0))
    ensures Cas.ParseCasHeader(BuildHeader(seqNo, cmd, bodyLen))
         == Ok(Cas.Header(seqNo, cmd, Cas.ENCRYPTED_FLAGS, bodyLen, 0))
  {
    Cas.HeaderRoundTrip(Cas.Header(seqNo, cmd, Cas.ENCRYPTED_FLAGS, bodyLen, 0));
  }

  lemma HeaderFields(seqNo: u32, cmd: u32, bodyLen: u32, rest: Bytes)
    ensures var wire := BuildHeader(seqNo, cmd, bodyLen) + rest;
            && Slice(wire, 0, 4) == MAGIC
            && UnpackU32(wire[8..12]) == seqNo && UnpackU32(wire[16..20]) == cmd && UnpackU32(wire[24..28]) == bodyLen
  {
    var wire := BuildHeader(seqNo, cmd, bodyLen) + rest;
    assert wire[8..12] == PackU32(seqNo);
    assert wire[16..20] == PackU32(cmd);
    assert wire[24..28] == PackU32(bodyLen);
    U32RoundTrip(seqNo);
    U32RoundTrip(cmd);
    U32RoundTrip(bodyLen);
  }

  /** A built packet is read off the stream whole, whatever follows it. */
  lemma PacketArrives(c: BlockCipher, md5: Cas.Digest, seqNo: u32, cmd: u32, xml: Bytes, key: Bytes, rest: Bytes)
    requires |Encrypt(c, key, xml)| < 0x1_0000_0000
    ensures var wire := BuildPacket(c, md5, seqNo, cmd, xml, key);
            Arrived(wire + rest) && (wire + rest)[..ResponseSize(wire + rest).value] == wire
  {
    var body := Encrypt(c, key, xml);
    HeaderFields(seqNo, cmd, |body|, body + md5(body) + rest);
    assert BuildPacket(c, md5, seqNo, cmd, xml, key) + rest
        == BuildHeader(seqNo, cmd, |body|) + (body + md5(body) + rest);
  }

  /** Parsing a built packet gives its fields, and its XML exactly unless the ciphertext itself looks like XML. */
  lemma ControlRoundTrip(c: BlockCipher, md5: Cas.Digest, seqNo: u32, cmd: u32, xml: Bytes, key: Bytes)
    requires |Encrypt(c, key, xml)| < 0x1_0000_0000
    ensures var ct := Encrypt(c, key, xml);
            var r := ParseResponse(c, BuildPacket(c, md5, seqNo, cmd, xml, key), key);
            && r.Ok? && r.value.meta == Meta(seqNo, cmd, |ct|)
            && (r.value.plain == xml <==> !(XML_START <= ct))
  {
    var body := Encrypt(c, key, xml);
    var wire := BuildPacket(c, md5, seqNo, cmd, xml, key);
    HeaderFields(seqNo, cmd, |body|, body + md5(body));
    assert wire == BuildHeader(seqNo, cmd, |body|) + (body + md5(body));
    assert Slice(wire, HEADER_LEN, HEADER_LEN + |body|) == body;
    DecryptInvertsEncrypt(c, key, body, xml);
  }

  /** The exception is real: under every cipher and key, some plaintext encrypts to bytes that start like XML. */
  lemma CiphertextCanLookLikeXml(c: BlockCipher, key: Bytes) returns (xml: Bytes)
    ensures |xml| == BLOCK_SIZE && XML_START <= Encrypt(c, key, xml)
  {
    var block: Block := XML_START + [0, 0, 0, 0, 0, 0, 0, 0, 0, 0, 0];
    xml := Xor(c.dec(key, block), AES_IV);
    XorCancels(c.dec(key, block), AES_IV);
    assert Pad(xml)[..BLOCK_SIZE] == xml;
    assert Encrypt(c, key, xml)[..BLOCK_SIZE] == c.enc(key, c.dec(key, block)) == block;
  }

  class Cpd7LanClient {
    const cipher: BlockCipher
    const md5: Cas.Digest
    const aesKey: Bytes

    var playSock: Socket?
    var closed: bool

    constructor (cipher: BlockCipher, md5: Cas.Digest, aesKey: Bytes)
      ensures this.cipher == cipher && this.md5 == md5 && this.aesKey == aesKey
      ensures playSock == null && !closed
    {
      this.cipher, this.md5, this.aesKey := cipher, md5, aesKey;
      playSock, closed := null, false;
    }

    /** The constructor's check: null where it raises. */
    static method Create(cipher: BlockCipher, md5: Cas.Digest, aesKey: Bytes) returns (client: Cpd7LanClient?)
      ensures client == null <==> |aesKey| != 16
      ensures client != null ==> fresh(client) && client.aesKey == aesKey && client.playSock == null && !client.closed
    {
      if |aesKey| != 16 {
        return null;
      }
      client := new Cpd7LanClient(cipher, md5, aesKey);
    }

    /** The packet of a request, if it is sent at all. */
    function Packet(sends: bool, cmd: u32, xml: Bytes): Bytes
      requires |xml| < 0x1000_0000
    {
      if sends then BuildPacket(cipher, md5, 1, cmd, xml, aesKey) else []
    }

    method SendCmd(sock: Socket, seqNo: u32, cmd: u32, xml: Bytes) returns (r: Result<Response>)
      requires sock.Valid() && |Encrypt(cipher, aesKey, xml)| < 0x1_0000_0000
      modifies sock
      ensures sock.Valid() && sock.sent == old(sock.sent) + BuildPacket(cipher, md5, seqNo, cmd, xml, aesKey)
      ensures var ahead := old(sock.Ahead());
              if Arrived(ahead) then
                var size := ResponseSize(ahead).value;
                r == ParseResponse(cipher, ahead[..size], aesKey) && sock.pos == old(sock.pos) + size
              else r == Err(EndError(sock.ending))
      ensures r == old(Reply(cipher, aesKey, sock))
    {
      sock.SendAll(BuildPacket(cipher, md5, seqNo, cmd, xml, aesKey));
      var wire := RecvResponse(sock);
      if wire.Err? {
        return Err(wire.error);
      }
      r := ParseResponse(cipher, wire.value, aesKey);
    }

    /**
     INIT, INVITE, PLAY on three sockets.  ``findSession`` stands for the search of the INVITE reply, and ``playXml``
     for the PLAY request of that session.  It succeeds if and only if it is not started yet, all three replies arrive
     and parse, and the session is found; otherwise the first of these to fail says why, and nothing is sent after it.
     Only success keeps the PLAY socket, read exactly past the PLAY response.
     */
    method Start(ctrl: Socket, invite: Socket, play: Socket, initXml: Bytes, inviteXml: Bytes,
                 findSession: Bytes -> Option<nat>, playXml: nat -> Bytes) returns (r: Result<nat>)
      requires ctrl.Valid() && invite.Valid() && play.Valid()
      requires ctrl != invite && invite != play && ctrl != play
      requires |initXml| < 0x1000_0000 && |inviteXml| < 0x1000_0000 && forall n: nat :: |playXml(n)| < 0x1000_0000
      modifies this`playSock, ctrl, invite, play
      ensures play.Valid()
      ensures var inits := old(playSock) == null;
              var init := old(Reply(cipher, aesKey, ctrl));
              var found := FoundSession(old(Reply(cipher, aesKey, invite)), findSession);
              var reply := old(Reply(cipher, aesKey, play));
              var invites, plays := inits && init.Ok?, inits && init.Ok? && found.Ok?;
              && (r.Ok? <==> plays && reply.Ok?)
              && (r.Ok? ==> r.value == found.value)
              && (r.Err? ==> r.error == (if !inits then AlreadyStarted else if !invites then init.error
                                         else if !plays then found.error else reply.error))
              && ctrl.sent == old(ctrl.sent) + Packet(inits, 0x2013, initXml)
              && invite.sent == old(invite.sent) + Packet(invites, 0x2011, inviteXml)
              && (if plays then play.sent == old(play.sent) + Packet(true, 0x3105, playXml(found.value))
                  else unchanged(play))
      ensures if r.Ok? then playSock == play && play.pos == old(play.pos) + ResponseSize(old(play.Ahead())).value
              else playSock == old(playSock)
    {
      if playSock != null {
        return Err(AlreadyStarted);
      }
      var a := SendCmd(ctrl, 1, CMD_INIT, initXml);
      if a.Err? {
        return Err(a.error);
      }
      var b := SendCmd(invite, 1, CMD_INVITE, inviteXml);
      if b.Err? {
        return Err(b.error);
      }
      var session := findSession(b.value.plain);
      if session.None? {
        return Err(NoSession);
      }
      var p := SendCmd(play, 1, CMD_PLAY, playXml(session.value));
      if p.Err? {
        return Err(p.error);
      }
      playSock := play;
      return Ok(session.value);
    }

    /** The next fragment of the raw stream; empty on timeout, end, or after close. */
    method ReadChunk(maxBytes: nat := 65536) returns (r: Bytes)
      requires playSock != null ==> playSock.Valid()
      requires maxBytes > 0
      modifies if playSock == null then {} else {playSock}
      ensures |r| <= maxBytes && (playSock == null || closed ==> r == [])
      ensures playSock != null ==> playSock.Valid() && playSock.pos == old(playSock.pos) + |r|
      ensures playSock != null ==> r == playSock.incoming[old(playSock.pos)..playSock.pos]
      ensures playSock != null ==> playSock.sent == old(playSock.sent)
      ensures playSock != null && !closed ==> (r == [] <==> old(playSock.pos) == |playSock.incoming|)
    {
      if playSock == null || closed {
        return [];
      }
      var got := playSock.Recv(maxBytes);
      return if got.Timeout? then [] else got.bytes;
    }

    method Close()
      modifies `closed, `playSock
      ensures closed && playSock == null
    {
      closed := true;
      playSock := null;
    }
  }
}
