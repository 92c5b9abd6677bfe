/** Keyframe markers and MPEG-PS pack headers inside plaintext (decoder.py, tcp_relay.py). */
module Markers {
  import opened ByteStrings
  import opened Search

  const MPEG_PS_PACK: Bytes := [0x00, 0x00, 0x01, 0xBA]
  const HEVC_VPS_4B: Bytes := [0x00, 0x00, 0x00, 0x01, 0x40, 0x01]
  const HEVC_VPS_3B: Bytes := [0x00, 0x00, 0x01, 0x40, 0x01]
  const H264_SPS_4B: Bytes := [0x00, 0x00, 0x00, 0x01, 0x67]
  const H264_SPS_3B: Bytes := [0x00, 0x00, 0x01, 0x67]

  predicate IsMarker(m: Bytes)
  {
    m == HEVC_VPS_4B || m == HEVC_VPS_3B || m == H264_SPS_4B || m == H264_SPS_3B
  }

  /** A keyframe marker with the three-byte start code lies wholly inside ``s`` at offset ``i``. */
  predicate ShortKeyframeAt(s: Bytes, i: int)
  {
    && 0 <= i && i + 4 <= |s|
    && s[i] == 0 && s[i + 1] == 0 && s[i + 2] == 1
    && (s[i + 3] == 0x67 || (i + 5 <= |s| && s[i + 3] == 0x40 && s[i + 4] == 1))
  }

  /** One of the four keyframe markers lies wholly inside ``s`` at offset ``i``. */
  predicate KeyframeAt(s: Bytes, i: int)
  {
    ShortKeyframeAt(s, i) || (0 <= i < |s| && s[i] == 0 && ShortKeyframeAt(s, i + 1))
  }

  predicate PackAt(s: Bytes, i: int)
  {
    0 <= i && i + 4 <= |s| && s[i] == 0 && s[i + 1] == 0 && s[i + 2] == 1 && s[i + 3] == 0xBA
  }

  /** The predicates say exactly that one of the patterns occurs. */
  lemma MarkerPatterns(s: Bytes, i: int)
    ensures ShortKeyframeAt(s, i) <==> Occurs(s, HEVC_VPS_3B, i) || Occurs(s, H264_SPS_3B, i)
    ensures KeyframeAt(s, i) <==>
            || Occurs(s, HEVC_VPS_4B, i) || Occurs(s, HEVC_VPS_3B, i)
            || Occurs(s, H264_SPS_4B, i) || Occurs(s, H264_SPS_3B, i)
    ensures PackAt(s, i) <==> Occurs(s, MPEG_PS_PACK, i)
  {
    if 0 <= i && i + 4 <= |s| {
      var a := s[i..i + 4];
      assert a == [s[i], s[i + 1], s[i + 2], s[i + 3]];
      if i + 5 <= |s| {
        var b := s[i..i + 5];
        assert b == [s[i], s[i + 1], s[i + 2], s[i + 3], s[i + 4]];
        if i + 6 <= |s| {
          var c := s[i..i + 6];
          assert c == [s[i], s[i + 1], s[i + 2], s[i + 3], s[i + 4], s[i + 5]];
        }
      }
    }
  }

  /** Among matches of the four patterns, an earlier start never means a later end. */
  lemma EarlierMarkerEndsNoLater(s: Bytes, m: Bytes, i: int, m': Bytes, i': int)
    requires IsMarker(m) && IsMarker(m') && Occurs(s, m, i) && Occurs(s, m', i')
    requires i <= i'
    ensures i + |m| <= i' + |m'|
    ensures i == i' ==> m == m'
  {
    var a, b := s[i..i + |m|], s[i'..i' + |m'|];
    forall k | 0 <= k < |m| ensures s[i + k] == m[k] { assert a[k] == m[k]; }
    forall k | 0 <= k < |m'| ensures s[i' + k] == m'[k] { assert b[k] == m'[k]; }
    var d := i' - i;
    forall k | 0 <= k < |m'| && d + k < |m| ensures m[d + k] == m'[k] {
      assert s[i + (d + k)] == m[d + k];
      assert s[i' + k] == m'[k];
    }
    assert d + 2 < |m| ==> m[d + 2] == m'[2];
    assert d + 3 < |m| ==> m[d + 3] == m'[3];
    assert d + 4 < |m| && 4 < |m'| ==> m[d + 4] == m'[4];
    if i == i' {
      assert s[i + 2] == m[2] == m'[2] && s[i + 3] == m[3] == m'[3];
      if |m| > 4 && |m'| > 4 { assert s[i + 4] == m[4] == m'[4]; }
    }
  }

  // First and last marker.

  /** ``k`` is the offset of the first keyframe marker of ``s``, or -1. */
  ghost predicate IsFirstKeyframe(s: Bytes, k: int)
  {
    if k == -1 then forall i :: !KeyframeAt(s, i)
    else KeyframeAt(s, k) && forall i | i < k :: !KeyframeAt(s, i)
  }

  /** ``k`` is the offset of the last keyframe marker of ``s``, or -1. */
  ghost predicate IsLastKeyframe(s: Bytes, k: int)
  {
    if k == -1 then forall i :: !KeyframeAt(s, i)
    else KeyframeAt(s, k) && forall i | k < i :: !KeyframeAt(s, i)
  }

  /** ``k`` is the offset of the last pack header inside ``s[..end]``, or -1. */
  ghost predicate IsLastPack(s: Bytes, end: int, k: int)
  {
    if k == -1 then forall i | i + 4 <= end :: !PackAt(s, i)
    else PackAt(s, k) && k + 4 <= end && forall i | k < i && i + 4 <= end :: !PackAt(s, i)
  }

  function FirstKeyframe(s: Bytes): (k: int)
    ensures IsFirstKeyframe(s, k) && -1 <= k < |s|
  {
    FirstKeyframeFrom(s, 0)
  }

  function FirstKeyframeFrom(s: Bytes, from: nat): (k: int)
    requires forall i | i < from :: !KeyframeAt(s, i)
    ensures IsFirstKeyframe(s, k) && -1 <= k < |s|
    decreases |s| - from
  {
    if from >= |s| then -1 else if KeyframeAt(s, from) then from else FirstKeyframeFrom(s, from + 1)
  }

  function LastKeyframe(s: Bytes): (k: int)
    ensures IsLastKeyframe(s, k) && -1 <= k < |s|
  {
    LastKeyframeBelow(s, |s|)
  }

  function LastKeyframeBelow(s: Bytes, below: nat): (k: int)
    requires below <= |s| && forall i | below <= i :: !KeyframeAt(s, i)
    ensures IsLastKeyframe(s, k) && -1 <= k < |s|
    decreases below
  {
    if below == 0 then -1 else if KeyframeAt(s, below - 1) then below - 1 else LastKeyframeBelow(s, below - 1)
  }

  function LastPack(s: Bytes, end: nat): (k: int)
    requires end <= |s|
    ensures IsLastPack(s, end, k) && -1 <= k < |s|
  {
    LastPackBelow(s, end, end)
  }

  function LastPackBelow(s: Bytes, end: nat, below: nat): (k: int)
    requires below <= end <= |s| && forall i | below <= i && i + 4 <= end :: !PackAt(s, i)
    ensures IsLastPack(s, end, k) && -1 <= k < |s|
    decreases below
  {
    if below == 0 then -1
    else if below + 3 <= end && PackAt(s, below - 1) then below - 1
    else LastPackBelow(s, end, below - 1)
  }

  /** The three offsets are determined by what they are required to be. */
  lemma OffsetsAreUnique(s: Bytes, end: nat, k: int)
    requires end <= |s|
    ensures IsFirstKeyframe(s, k) ==> k == FirstKeyframe(s)
    ensures IsLastKeyframe(s, k) ==> k == LastKeyframe(s)
    ensures IsLastPack(s, end, k) ==> k == LastPack(s, end)
  {
    var f, l, p := FirstKeyframe(s), LastKeyframe(s), LastPack(s, end);
    assert f == -1 || KeyframeAt(s, f);
    assert l == -1 || KeyframeAt(s, l);
    assert p == -1 || PackAt(s, p);
    assert IsLastKeyframe(s, k) && k != -1 ==> KeyframeAt(s, k);
    assert IsFirstKeyframe(s, k) && k != -1 ==> KeyframeAt(s, k);
    assert IsLastPack(s, end, k) && k != -1 ==> PackAt(s, k);
  }

  lemma KeyframeMeansLast(s: Bytes, i: int)
    requires KeyframeAt(s, i)
    ensures i <= LastKeyframe(s)
  {
    assert IsLastKeyframe(s, LastKeyframe(s));
  }

  /** The source's four searches and their minimum. */
  method FindKeyframe(buf: Bytes) returns (k: int)
    ensures IsFirstKeyframe(buf, k)
    ensures k == FirstKeyframe(buf)
  {
    var a := Find(buf, HEVC_VPS_4B);
    var b := Find(buf, HEVC_VPS_3B);
    var c := Find(buf, H264_SPS_4B);
    var d := Find(buf, H264_SPS_3B);
    forall i ensures KeyframeAt(buf, i) ==>
                       || Occurs(buf, HEVC_VPS_4B, i) || Occurs(buf, HEVC_VPS_3B, i)
                       || Occurs(buf, H264_SPS_4B, i) || Occurs(buf, H264_SPS_3B, i)
    {
      MarkerPatterns(buf, i);
    }
    k := a;
    if b >= 0 && (k < 0 || b < k) { k := b; }
    if c >= 0 && (k < 0 || c < k) { k := c; }
    if d >= 0 && (k < 0 || d < k) { k := d; }
    MarkerPatterns(buf, k);
    OffsetsAreUnique(buf, |buf|, k);
  }

  /** The source's four reverse searches and their maximum. */
  method RFindLastKeyframe(buf: Bytes) returns (k: int)
    ensures IsLastKeyframe(buf, k)
    ensures k == LastKeyframe(buf)
  {
    var a := RFind(buf, HEVC_VPS_4B, |buf|);
    var b := RFind(buf, HEVC_VPS_3B, |buf|);
    var c := RFind(buf, H264_SPS_4B, |buf|);
    var d := RFind(buf, H264_SPS_3B, |buf|);
    forall i ensures KeyframeAt(buf, i) ==>
                       || Occurs(buf, HEVC_VPS_4B, i) || Occurs(buf, HEVC_VPS_3B, i)
                       || Occurs(buf, H264_SPS_4B, i) || Occurs(buf, H264_SPS_3B, i)
    {
      MarkerPatterns(buf, i);
    }
    k := a;
    if b > k { k := b; }
    if c > k { k := c; }
    if d > k { k := d; }
    MarkerPatterns(buf, k);
    OffsetsAreUnique(buf, |buf|, k);
  }

  method RFindPack(buf: Bytes, end: nat) returns (k: int)
    requires end <= |buf|
    ensures k == LastPack(buf, end)
  {
    k := RFind(buf, MPEG_PS_PACK, end);
    forall i ensures PackAt(buf, i) == Occurs(buf, MPEG_PS_PACK, i) {
      MarkerPatterns(buf, i);
    }
    OffsetsAreUnique(buf, end, k);
  }

  /** The last marker always has the three-byte start code: a four-byte one ends in a three-byte one. */
  lemma LastKeyframeIsShort(s: Bytes)
    ensures LastKeyframe(s) >= 0 ==> ShortKeyframeAt(s, LastKeyframe(s))
  {
    var k := LastKeyframe(s);
    assert k >= 0 ==> !KeyframeAt(s, k + 1);
  }

  /** A marker that is complete stays where it is when bytes are appended. */
  lemma MarkersStay(s: Bytes, x: Bytes, i: int)
    ensures KeyframeAt(s, i) ==> KeyframeAt(s + x, i)
    ensures ShortKeyframeAt(s, i) ==> ShortKeyframeAt(s + x, i)
    ensures PackAt(s, i) ==> PackAt(s + x, i)
    ensures i + 4 <= |s| && PackAt(s + x, i) ==> PackAt(s, i)
    ensures i + 6 <= |s| && KeyframeAt(s + x, i) ==> KeyframeAt(s, i)
  {
  }

  /** Offsets in a suffix are offsets in the whole, shifted. */
  lemma MarkersShift(s: Bytes, cut: nat, i: int)
    requires cut <= |s| && 0 <= i
    ensures KeyframeAt(s[cut..], i) <==> KeyframeAt(s, cut + i)
    ensures ShortKeyframeAt(s[cut..], i) <==> ShortKeyframeAt(s, cut + i)
    ensures PackAt(s[cut..], i) <==> PackAt(s, cut + i)
  {
  }
}
