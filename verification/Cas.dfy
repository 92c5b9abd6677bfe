/** CAS packets: 32-byte header, body, 32-byte tail (pylocalapi/cas.py). */
module Cas {
  import opened ByteStrings
  import opened BlockCiphers
  import opened Sockets

  const CAS_MAGIC: Bytes := [0x9E, 0xBA, 0xAC, 0xE9]
  const CAS_VERSION: Bytes := [0x01, 0x00, 0x00, 0x00]
  const CAS_HEADER_SIZE := 32
  const CAS_TAIL_SIZE := 32
  const ENCRYPTED_FLAGS: u32 := 0xFFFF_FFFF
  const CMD_TRANSFER: u32 := 0x2005

  type Hex32 = b: Bytes | |b| == CAS_TAIL_SIZE
    witness [0, 0, 0, 0, 0, 0, 0, 0, 0, 0, 0, 0, 0, 0, 0, 0, 0, 0, 0, 0, 0, 0, 0, 0, 0, 0, 0, 0, 0, 0, 0, 0]

  /** The hexadecimal MD5 digest, left uninterpreted. */
  type Digest = Bytes -> Hex32

  datatype Header = Header(sessionId: u32, cmd: u32, flags: u32, bodyLen: u32, extra: u32)

  function MakeCasHeader(h: Header): (r: Bytes)
    ensures |r| == CAS_HEADER_SIZE
  {
    CAS_MAGIC + CAS_VERSION + PackU32(h.sessionId) + [0, 0, 0, 0]
    + PackU32(h.cmd) + PackU32(h.flags) + PackU32(h.bodyLen) + PackU32(h.extra)
  }

  function ParseCasHeader(data: Bytes): Result<Header>
  {
    if |data| != CAS_HEADER_SIZE then Err(TooShort)
    else if data[..4] != CAS_MAGIC then Err(BadMagic)
    else Ok(Header(UnpackU32(data[8..12]), UnpackU32(data[16..20]), UnpackU32(data[20..24]),
                   UnpackU32(data[24..28]), UnpackU32(data[28..32])))
  }

  lemma HeaderRoundTrip(h: Header)
    ensures ParseCasHeader(MakeCasHeader(h)) == Ok(h)
  {
    var data := MakeCasHeader(h);
    assert data[..4] == CAS_MAGIC;
    assert data[8..12] == PackU32(h.sessionId);
    assert data[16..20] == PackU32(h.cmd);
    assert data[20..24] == PackU32(h.flags);
    assert data[24..28] == PackU32(h.bodyLen);
    assert data[28..32] == PackU32(h.extra);
    U32RoundTrip(h.sessionId);
    U32RoundTrip(h.cmd);
    U32RoundTrip(h.flags);
    U32RoundTrip(h.bodyLen);
    U32RoundTrip(h.extra);
  }

  /** A header is accepted by its size and magic alone, and read field by field, the highest octet first. */
  lemma HeaderParsedExactly(data: Bytes, h: Header)
    ensures ParseCasHeader(data) == Ok(h) <==>
              && |data| == 32 && data[..4] == [0x9E, 0xBA, 0xAC, 0xE9]
              && BigEndianAt(data, 8) == h.sessionId && BigEndianAt(data, 16) == h.cmd
              && BigEndianAt(data, 20) == h.flags && BigEndianAt(data, 24) == h.bodyLen
              && BigEndianAt(data, 28) == h.extra
    ensures ParseCasHeader(data).Err? ==> ParseCasHeader(data).error == if |data| == 32 then BadMagic else TooShort
  {
    if |data| == 32 {
      UnpackedAt(data, 8);
      UnpackedAt(data, 16);
      UnpackedAt(data, 20);
      UnpackedAt(data, 24);
      UnpackedAt(data, 28);
    }
  }

  /** A packet around ``body``; the header's length field is the body's length. */
  function Packet(md5: Digest, h: Header, body: Bytes): (r: Bytes)
    requires |body| == h.bodyLen
    ensures |r| == CAS_HEADER_SIZE + |body| + CAS_TAIL_SIZE
  {
    MakeCasHeader(h) + body + md5(body)
  }

  function BuildCasPacket(md5: Digest, cmd: u32, body: Bytes, sessionId: u32, extra: u32): Bytes
    requires |body| < 0x1_0000_0000
  {
    Packet(md5, Header(sessionId, cmd, 0, |body|, extra), body)
  }

  /** The packet, byte by byte. */
  lemma PacketBytes(md5: Digest, cmd: u32, body: Bytes, sessionId: u32, extra: u32)
    requires |body| < 0x1_0000_0000
    ensures var wire := BuildCasPacket(md5, cmd, body, sessionId, extra);
            && |wire| == 32 + |body| + 32
            && wire[..8] == [0x9E, 0xBA, 0xAC, 0xE9, 0x01, 0x00, 0x00, 0x00]
            && BigEndianAt(wire, 8) == sessionId && wire[12..16] == [0, 0, 0, 0]
            && BigEndianAt(wire, 16) == cmd && wire[20..24] == [0, 0, 0, 0]
            && BigEndianAt(wire, 24) == |body| && BigEndianAt(wire, 28) == extra
            && wire[32..32 + |body|] == body && wire[32 + |body|..] == md5(body)
  {
    var wire := BuildCasPacket(md5, cmd, body, sessionId, extra);
    U32BigEndian(0, 0, 0, 0, 0);
    assert wire[8..12] == PackU32(sessionId) && wire[16..20] == PackU32(cmd) && wire[20..24] == PackU32(0);
    assert wire[24..28] == PackU32(|body|) && wire[28..32] == PackU32(extra);
    PackedAt(wire, 8, sessionId);
    PackedAt(wire, 16, cmd);
    PackedAt(wire, 24, |body|);
    PackedAt(wire, 28, extra);
  }

  // Reading.

  datatype Response = Response(header: Header, body: Bytes)

  /** What one _recv_cas_response makes of the bytes ahead, and how many it uses up. */
  datatype Outcome = Complete(response: Response, size: nat) | Malformed(size: nat) | Unfinished

  function ReadCas(ahead: Bytes): Outcome
  {
    if |ahead| < CAS_HEADER_SIZE then Unfinished
    else
      match ParseCasHeader(ahead[..CAS_HEADER_SIZE])
      case Err(_) => Malformed(CAS_HEADER_SIZE)
      case Ok(h) =>
        var size := CAS_HEADER_SIZE + h.bodyLen + CAS_TAIL_SIZE;
        if |ahead| < size then Unfinished
        else Complete(Response(h, ahead[CAS_HEADER_SIZE..CAS_HEADER_SIZE + h.bodyLen]), size)
  }

  /** Under every fragmentation: the first packet ahead and nothing more, or an error and no short body. */
  method RecvCasResponse(sock: Socket, md5: Digest) returns (r: Result<Response>)
    requires sock.Valid()
    modifies sock`pos
    ensures sock.Valid()
    ensures match ReadCas(old(sock.Ahead()))
            case Complete(response, size) => r == Ok(response) && sock.pos == old(sock.pos) + size
            case Malformed(size) => r == Err(BadMagic) && sock.pos == old(sock.pos) + size
            case Unfinished => r == Err(EndError(sock.ending)) && sock.pos == |sock.incoming|
  {
    ghost var ahead := sock.Ahead();
    var raw := RecvExact(sock, CAS_HEADER_SIZE);
    if raw.Err? {
      return Err(raw.error);
    }
    var hdr := ParseCasHeader(raw.value);
    if hdr.Err? {
      return Err(hdr.error);
    }
    assert sock.Ahead() == ahead[CAS_HEADER_SIZE..];
    var body: Bytes := [];
    if hdr.value.bodyLen > 0 {
      var got := RecvExact(sock, hdr.value.bodyLen);
      if got.Err? {
        return Err(got.error);
      }
      body := got.value;
    }
    assert sock.Ahead() == ahead[CAS_HEADER_SIZE + hdr.value.bodyLen..];
    var tail := RecvExact(sock, CAS_TAIL_SIZE);
    if tail.Err? {
      return Err(tail.error);
    }
    assert body == ahead[CAS_HEADER_SIZE..CAS_HEADER_SIZE + hdr.value.bodyLen];
    // A tail that differs from md5(body) is only logged.
    return Ok(Response(hdr.value, body));
  }

  lemma PacketIsRead(md5: Digest, h: Header, body: Bytes, rest: Bytes)
    requires |body| == h.bodyLen
    ensures ReadCas(Packet(md5, h, body) + rest) == Complete(Response(h, body), |Packet(md5, h, body)|)
  {
    var ahead := Packet(md5, h, body) + rest;
    assert ahead[..CAS_HEADER_SIZE] == MakeCasHeader(h);
    HeaderRoundTrip(h);
    assert ahead[CAS_HEADER_SIZE..CAS_HEADER_SIZE + |body|] == body;
  }

  // Streams of packets.

  datatype Message = Message(cmd: u32, sessionId: u32, extra: u32, body: Bytes)

  predicate Sendable(m: Message)
  {
    |m.body| < 0x1_0000_0000
  }

  predicate AllSendable(ms: seq<Message>)
  {
    forall i | 0 <= i < |ms| :: Sendable(ms[i])
  }

  function Encoded(md5: Digest, m: Message): Bytes
    requires Sendable(m)
  {
    BuildCasPacket(md5, m.cmd, m.body, m.sessionId, m.extra)
  }

  function EncodeAll(md5: Digest, ms: seq<Message>): Bytes
    requires AllSendable(ms)
  {
    if ms == [] then [] else Encoded(md5, ms[0]) + EncodeAll(md5, ms[1..])
  }

  function Decoded(m: Message): Response
    requires Sendable(m)
  {
    Response(Header(m.sessionId, m.cmd, 0, |m.body|, m.extra), m.body)
  }

  lemma FirstMessageIsRead(md5: Digest, ms: seq<Message>, rest: Bytes)
    requires AllSendable(ms) && ms != []
    ensures var ahead, later := EncodeAll(md5, ms) + rest, EncodeAll(md5, ms[1..]) + rest;
            && |later| <= |ahead| && later == ahead[|ahead| - |later|..]
            && ReadCas(ahead) == Complete(Decoded(ms[0]), |ahead| - |later|)
  {
    var later := EncodeAll(md5, ms[1..]) + rest;
    assert EncodeAll(md5, ms) + rest == Encoded(md5, ms[0]) + later;
    PacketIsRead(md5, Decoded(ms[0]).header, ms[0].body, later);
  }

  lemma NothingEncoded(md5: Digest, rest: Bytes)
    ensures EncodeAll(md5, []) + rest == rest
  {
  }

  /** Repeated receiving gives back the messages in order, under every fragmentation, and never reads past the last. */
  method ReceiveMessages(sock: Socket, md5: Digest, ghost ms: seq<Message>, n: nat, ghost rest: Bytes)
    returns (rs: seq<Response>)
    requires sock.Valid() && AllSendable(ms) && n == |ms|
    requires sock.Ahead() == EncodeAll(md5, ms) + rest
    modifies sock`pos
    ensures sock.Valid() && sock.Ahead() == rest
    ensures |rs| == |ms| && forall i | 0 <= i < |ms| :: rs[i] == Decoded(ms[i])
  {
    hide EncodeAll, ParseCasHeader;
    rs := [];
    for k := 0 to n
      invariant sock.Valid()
      invariant sock.Ahead() == EncodeAll(md5, ms[k..]) + rest
      invariant |rs| == k && forall i | 0 <= i < k :: rs[i] == Decoded(ms[i])
    {
      FirstMessageIsRead(md5, ms[k..], rest);
      assert ms[k..][1..] == ms[k + 1..];
      var r := RecvCasResponse(sock, md5);
      rs := rs + [r.value];
    }
    NothingEncoded(md5, rest);
  }

  // The nested transfer of query_permanent_password.

  /** Slice the inner packet out of an outer response and decrypt it when its flags say so (cas.py:344-388). */
  function UnwrapTransfer(c: BlockCipher, key: Bytes, outer: Response): Result<Bytes>
  {
    var inner := Slice(outer.body, outer.header.extra, |outer.body|);
    if |inner| < CAS_HEADER_SIZE + CAS_TAIL_SIZE then Err(TooShort)
    else
      match ParseCasHeader(inner[..CAS_HEADER_SIZE])
      case Err(e) => Err(e)
      case Ok(h) =>
        var ct := Slice(inner, CAS_HEADER_SIZE, CAS_HEADER_SIZE + h.bodyLen);
        if h.flags == ENCRYPTED_FLAGS then
          match Decrypt(c, key, ct)
          case None => Err(BadCiphertext)
          case Some(plain) => Ok(plain)
        else Ok(ct)
  }

  /** When the slicing fails, and what it gives otherwise; flags and sizes as numbers. */
  lemma UnwrapExact(c: BlockCipher, key: Bytes, outer: Response)
    ensures var start := outer.header.extra;
            var r := UnwrapTransfer(c, key, outer);
            && (|outer.body| < start + 64 <==> r == Err(TooShort))
            && (|outer.body| >= start + 64 ==>
                  match ParseCasHeader(outer.body[start..start + 32])
                  case Err(e) => e == BadMagic && r == Err(e)
                  case Ok(h) =>
                    var body := Slice(outer.body, start + 32, start + 32 + h.bodyLen);
                    if h.flags != 4294967295 then r == Ok(body)
                    else r == match Decrypt(c, key, body) case None => Err(BadCiphertext) case Some(p) => Ok(p))
  {
    var start := outer.header.extra;
    if |outer.body| >= start + 64 {
      var inner := Slice(outer.body, start, |outer.body|);
      assert inner == outer.body[start..] && inner[..32] == outer.body[start..start + 32];
      match ParseCasHeader(inner[..32])
      case Err(_) =>
      case Ok(h) => assert Slice(inner, 32, 32 + h.bodyLen) == Slice(outer.body, start + 32, start + 32 + h.bodyLen);
    }
  }

  /** The body a sender puts under ``flags``. */
  function InnerBody(c: BlockCipher, key: Bytes, encrypted: bool, plain: Bytes): Bytes
  {
    if encrypted then Encrypt(c, key, plain) else plain
  }

  lemma InnerIsSliced(md5: Digest, h: Header, body: Bytes, trailing: Bytes)
    requires |body| == h.bodyLen
    ensures var inner := Packet(md5, h, body) + trailing;
            && |inner| >= CAS_HEADER_SIZE + CAS_TAIL_SIZE
            && ParseCasHeader(inner[..CAS_HEADER_SIZE]) == Ok(h)
            && Slice(inner, CAS_HEADER_SIZE, CAS_HEADER_SIZE + h.bodyLen) == body
  {
    var inner := Packet(md5, h, body) + trailing;
    assert inner[..CAS_HEADER_SIZE] == MakeCasHeader(h);
    HeaderRoundTrip(h);
    assert inner[CAS_HEADER_SIZE..CAS_HEADER_SIZE + |body|] == body;
  }

  /**
   Round trip through both packets: what was put inside comes out exactly when the flags tell the truth about the
   encryption; padding makes every ciphertext longer than its plaintext, so a wrong flag never goes unnoticed.
   */
  lemma NestedTransferRoundTrip(c: BlockCipher, key: Bytes, md5: Digest, xml: Bytes, h: Header,
                                encrypted: bool, plain: Bytes, trailing: Bytes, sessionId: u32, rest: Bytes)
    requires |InnerBody(c, key, encrypted, plain)| == h.bodyLen
    requires |xml| < 0x1_0000_0000
    requires |xml| + |Packet(md5, h, InnerBody(c, key, encrypted, plain))| + |trailing| < 0x1_0000_0000
    ensures var inner := Packet(md5, h, InnerBody(c, key, encrypted, plain));
            var wire := BuildCasPacket(md5, CMD_TRANSFER, xml + inner + trailing, sessionId, |xml|);
            var read := ReadCas(wire + rest);
            && |wire| == 64 + |xml + inner + trailing| && BigEndianAt(wire, 16) == 0x2005
            && read.Complete? && read.size == |wire| && read.response.header.extra == |xml|
            && (UnwrapTransfer(c, key, read.response) == Ok(plain) <==> (h.flags == ENCRYPTED_FLAGS) == encrypted)
  {
    var ct := InnerBody(c, key, encrypted, plain);
    var inner := Packet(md5, h, ct);
    var body := xml + inner + trailing;
    PacketIsRead(md5, Header(sessionId, CMD_TRANSFER, 0, |body|, |xml|), body, rest);
    PacketBytes(md5, CMD_TRANSFER, body, sessionId, |xml|);
    assert Slice(body, |xml|, |body|) == inner + trailing;
    InnerIsSliced(md5, h, ct, trailing);
    DecryptInvertsEncrypt(c, key, ct, plain);
    assert ct == Encrypt(c, key, plain) ==> |ct| > |plain|;
  }
}
