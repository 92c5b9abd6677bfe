/** The RTSP-interleaved chunk framing of decoder.py: ``$ <chan> <plen:2 BE> <payload>``. */
module Frames {
  import opened ByteStrings

  const DOLLAR: byte := 0x24

  datatype Frame = Frame(chan: byte, payload: Bytes)

  datatype Parsed = Parsed(frames: seq<Frame>, rest: Bytes)

  function PayloadLen(w: Bytes): (n: int)
    requires |w| >= 4
    ensures 0 <= n < 0x1_0000
  {
    UnpackU16(w[2..4])
  }

  /** No byte can be consumed before more data arrives. */
  predicate Stuck(w: Bytes)
  {
    |w| < 4 || (w[0] == DOLLAR && |w| < 4 + PayloadLen(w))
  }

  /** All frames of a whole byte string, and the bytes left over. */
  function Parse(w: Bytes): Parsed
    decreases |w|
  {
    if Stuck(w) then Parsed([], w)
    else if w[0] != DOLLAR then Parse(w[1..])
    else
      var total := 4 + PayloadLen(w);
      var tail := Parse(w[total..]);
      Parsed([Frame(w[1], w[4..total])] + tail.frames, tail.rest)
  }

  /** The leftover is stuck and a suffix of the input; at most, all but one of 65535 announced bytes have arrived. */
  lemma {:induction false} ResidualBounded(w: Bytes)
    ensures Stuck(Parse(w).rest) && |Parse(w).rest| <= 65538
    ensures |Parse(w).rest| <= |w| && Parse(w).rest == w[|w| - |Parse(w).rest|..]
    decreases |w|
  {
    if !Stuck(w) {
      ResidualBounded(w[if w[0] != DOLLAR then 1 else 4 + PayloadLen(w)..]);
    }
  }

  /** How many bytes the next step consumes: a stray byte or a whole frame. */
  function StepSize(w: Bytes): (n: nat)
    requires !Stuck(w)
    ensures 1 <= n <= |w|
  {
    if w[0] != DOLLAR then 1 else 4 + PayloadLen(w)
  }

  lemma StepUnaffected(a: Bytes, b: Bytes)
    requires !Stuck(a)
    ensures !Stuck(a + b) && StepSize(a + b) == StepSize(a)
    ensures (a + b)[0] == a[0] && (a + b)[1] == a[1]
    ensures (a + b)[StepSize(a)..] == a[StepSize(a)..] + b
    ensures a[0] == DOLLAR ==> (a + b)[4..StepSize(a)] == a[4..StepSize(a)]
  {
    assert (a + b)[2..4] == a[2..4];
  }

  /** Parsing can be resumed: a prefix's leftover and the rest of the input give the remaining frames. */
  lemma {:induction false} ParseResumes(a: Bytes, b: Bytes)
    ensures var whole, first := Parse(a + b), Parse(a);
            var second := Parse(first.rest + b);
            whole == Parsed(first.frames + second.frames, second.rest)
    decreases |a|
  {
    hide UnpackU16;
    if Stuck(a) {
      var p := Parse(a + b);
      assert [] + p.frames == p.frames;
    } else {
      StepUnaffected(a, b);
      var n := StepSize(a);
      var first := Parse(a[n..]);
      ParseResumes(a[n..], b);
      if a[0] == DOLLAR {
        var f := Frame(a[1], a[4..n]);
        var second := Parse(first.rest + b);
        assert ([f] + first.frames) + second.frames == [f] + (first.frames + second.frames);
      }
    }
  }

  /** A frame is the byte 24, a channel, the payload's length as two octets, high first, and the payload. */
  lemma FrameOnTheWire(chan: byte, hi: byte, lo: byte, payload: Bytes, more: Bytes)
    requires |payload| == hi * 256 + lo
    ensures Parse([0x24, chan, hi, lo] + payload + more)
         == Parsed([Frame(chan, payload)] + Parse(more).frames, Parse(more).rest)
  {
    var w := [0x24, chan, hi, lo] + payload + more;
    assert w[2..4] == [hi, lo];
    U16BigEndian(|payload|, hi, lo);
    assert w[4..4 + |payload|] == payload && w[4 + |payload|..] == more;
  }

  /** Any other byte is skipped, as soon as three more have come. */
  lemma OtherBytesAreStray(b: byte, more: Bytes)
    requires b != 0x24 && |more| >= 3
    ensures Parse([b] + more) == Parse(more)
  {
    assert ([b] + more)[1..] == more;
  }

  /** Until four bytes and the announced payload are there, nothing is consumed. */
  lemma IncompleteFrameWaits(chan: byte, hi: byte, lo: byte, part: Bytes)
    requires |part| < hi * 256 + lo
    ensures Parse([0x24, chan, hi, lo] + part) == Parsed([], [0x24, chan, hi, lo] + part)
  {
    var w := [0x24, chan, hi, lo] + part;
    assert w[2..4] == [hi, lo];
    U16BigEndian(hi * 256 + lo, hi, lo);
  }

  // Segmentation: an input splits in exactly one way into stray bytes, whole frames and a leftover.

  datatype Piece = Stray(b: byte) | Whole(frame: Frame)

  function EncodeFrame(f: Frame): (w: Bytes)
    requires |f.payload| < 0x1_0000
    ensures |w| == 4 + |f.payload|
  {
    [DOLLAR, f.chan] + PackU16(|f.payload|) + f.payload
  }

  predicate WellFormed(p: Piece)
  {
    match p
    case Stray(b) => b != DOLLAR
    case Whole(f) => |f.payload| < 0x1_0000
  }

  function Wire(p: Piece): (w: Bytes)
    requires WellFormed(p)
    ensures w != []
  {
    match p
    case Stray(b) => [b]
    case Whole(f) => EncodeFrame(f)
  }

  /** ``w`` is the pieces' bytes in order, then ``rest``; a stray byte is dropped only before three more. */
  predicate SplitsInto(w: Bytes, pieces: seq<Piece>, rest: Bytes)
    decreases |pieces|
  {
    if pieces == [] then w == rest && Stuck(rest)
    else
      && WellFormed(pieces[0])
      && (pieces[0].Stray? ==> |w| >= 4)
      && Wire(pieces[0]) <= w
      && SplitsInto(w[|Wire(pieces[0])|..], pieces[1..], rest)
  }

  function FramesOf(pieces: seq<Piece>): seq<Frame>
  {
    if pieces == [] then []
    else (if pieces[0].Whole? then [pieces[0].frame] else []) + FramesOf(pieces[1..])
  }

  function Pieces(w: Bytes): seq<Piece>
    decreases |w|
  {
    if Stuck(w) then []
    else if w[0] != DOLLAR then [Stray(w[0])] + Pieces(w[1..])
    else
      var total := 4 + PayloadLen(w);
      [Whole(Frame(w[1], w[4..total]))] + Pieces(w[total..])
  }

  predicate AllWellFormed(pieces: seq<Piece>)
  {
    forall i | 0 <= i < |pieces| :: WellFormed(pieces[i])
  }

  function WireOf(pieces: seq<Piece>): Bytes
    requires AllWellFormed(pieces)
  {
    if pieces == [] then [] else Wire(pieces[0]) + WireOf(pieces[1..])
  }

  lemma {:induction false} SplitConserves(w: Bytes, pieces: seq<Piece>, rest: Bytes)
    requires SplitsInto(w, pieces, rest)
    ensures AllWellFormed(pieces)
    ensures WireOf(pieces) + rest == w
    decreases |pieces|
  {
    if pieces == [] {
      assert [] + rest == rest;
    } else {
      hide Wire, WellFormed;
      var head := Wire(pieces[0]);
      SplitConserves(w[|head|..], pieces[1..], rest);
      PrefixSplits(w, head);
      Associative(head, WireOf(pieces[1..]), rest);
      forall i | 0 <= i < |pieces| ensures WellFormed(pieces[i]) {
        if 0 < i { assert pieces[i] == pieces[1..][i - 1]; }
      }
    }
  }

  lemma EncodedHeader(f: Frame, w: Bytes)
    requires |f.payload| < 0x1_0000 && EncodeFrame(f) <= w
    ensures !Stuck(w) && w[0] == DOLLAR && w[1] == f.chan && PayloadLen(w) == |f.payload|
    ensures w[4..4 + PayloadLen(w)] == f.payload
  {
    var e := EncodeFrame(f);
    assert w[..|e|] == e;
    assert w[2..4] == e[2..4] == PackU16(|f.payload|);
    U16RoundTrip(|f.payload|);
    assert w[4..|e|] == e[4..|e|] == f.payload;
  }

  lemma FirstFrameEncoded(w: Bytes)
    requires !Stuck(w) && w[0] == DOLLAR
    ensures var total := 4 + PayloadLen(w); EncodeFrame(Frame(w[1], w[4..total])) == w[..total]
  {
    U16Repacks(w[2..4]);
  }

  lemma {:induction false} SplitExists(w: Bytes)
    ensures SplitsInto(w, Pieces(w), Parse(w).rest)
    ensures FramesOf(Pieces(w)) == Parse(w).frames
    decreases |w|
  {
    hide EncodeFrame, UnpackU16;
    if !Stuck(w) {
      var n := if w[0] != DOLLAR then 1 else 4 + PayloadLen(w);
      SplitExists(w[n..]);
      var ps := Pieces(w);
      assert ps[1..] == Pieces(w[n..]);
      if w[0] == DOLLAR {
        FirstFrameEncoded(w);
      } else {
        assert Wire(ps[0]) == w[..1];
      }
    }
  }

  /** Any split is the one ``Pieces`` computes, and gives the frames and leftover of ``Parse``. */
  lemma {:induction false} SplitUnique(w: Bytes, pieces: seq<Piece>, rest: Bytes)
    ensures SplitsInto(w, pieces, rest) <==> pieces == Pieces(w) && rest == Parse(w).rest
    ensures SplitsInto(w, pieces, rest) ==> FramesOf(pieces) == Parse(w).frames
    decreases |pieces|
  {
    hide UnpackU16, PackU16;
    SplitExists(w);
    if SplitsInto(w, pieces, rest) && pieces != [] {
      var n := |Wire(pieces[0])|;
      SplitUnique(w[n..], pieces[1..], rest);
      if pieces[0].Whole? {
        EncodedHeader(pieces[0].frame, w);
      } else {
        assert w[0] == Wire(pieces[0])[0];
      }
      assert pieces == [pieces[0]] + pieces[1..];
    }
  }

  /** A frame, and the dollar-free junk sent before it. */
  datatype Sent = Sent(junk: Bytes, frame: Frame)

  predicate Sendable(s: Sent)
  {
    DOLLAR !in s.junk && |s.frame.payload| < 0x1_0000
  }

  predicate AllSendable(sent: seq<Sent>)
  {
    forall i | 0 <= i < |sent| :: Sendable(sent[i])
  }

  function EncodeAll(sent: seq<Sent>): Bytes
    requires AllSendable(sent)
  {
    if sent == [] then [] else sent[0].junk + EncodeFrame(sent[0].frame) + EncodeAll(sent[1..])
  }

  function FramesSent(sent: seq<Sent>): seq<Frame>
  {
    if sent == [] then [] else [sent[0].frame] + FramesSent(sent[1..])
  }

  lemma {:induction false} JunkIsSkipped(junk: Bytes, w: Bytes)
    requires DOLLAR !in junk && |w| >= 3
    ensures Parse(junk + w) == Parse(w)
    decreases |junk|
  {
    if junk == [] {
      assert junk + w == w;
    } else {
      assert (junk + w)[0] == junk[0] && (junk + w)[1..] == junk[1..] + w;
      JunkIsSkipped(junk[1..], w);
    }
  }

  lemma EncodedFrameParsed(f: Frame, more: Bytes)
    requires |f.payload| < 0x1_0000
    ensures Parse(EncodeFrame(f) + more) == Parsed([f] + Parse(more).frames, Parse(more).rest)
  {
    hide UnpackU16, PackU16;
    var w := EncodeFrame(f) + more;
    EncodedHeader(f, w);
    assert w[4 + PayloadLen(w)..] == more;
  }

  /** Every list of encoded frames, with junk between them, is recovered exactly. */
  lemma {:induction false} EncodedFramesRecovered(sent: seq<Sent>, tail: Bytes)
    requires AllSendable(sent)
    ensures Parse(EncodeAll(sent) + tail) == Parsed(FramesSent(sent) + Parse(tail).frames, Parse(tail).rest)
    decreases |sent|
  {
    if sent == [] {
      assert EncodeAll(sent) + tail == tail;
    } else {
      hide EncodeFrame;
      var f, more := sent[0].frame, EncodeAll(sent[1..]) + tail;
      assert Sendable(sent[0]);
      FirstSentApart(sent, tail);
      JunkIsSkipped(sent[0].junk, EncodeFrame(f) + more);
      EncodedFrameParsed(f, more);
      EncodedFramesRecovered(sent[1..], tail);
      assert FramesSent(sent) + Parse(tail).frames == [f] + (FramesSent(sent[1..]) + Parse(tail).frames);
    }
  }

  lemma FirstSentApart(sent: seq<Sent>, tail: Bytes)
    requires AllSendable(sent) && sent != []
    ensures Sendable(sent[0])
    ensures EncodeAll(sent) + tail == sent[0].junk + (EncodeFrame(sent[0].frame) + (EncodeAll(sent[1..]) + tail))
  {
    hide EncodeFrame;
    assert Sendable(sent[0]);
    var junk, e, more := sent[0].junk, EncodeFrame(sent[0].frame), EncodeAll(sent[1..]);
    Associative(junk + e, more, tail);
    Associative(junk, e, more + tail);
  }
}
