/** ``bytes.find`` and ``bytes.rfind`` as loops with first-match and last-match contracts. */
module Search {
  import opened ByteStrings

  /** ``pat`` occurs in ``s`` at offset ``i``. */
  predicate Occurs(s: Bytes, pat: Bytes, i: int)
  {
    0 <= i && i + |pat| <= |s| && s[i..i + |pat|] == pat
  }

  /** ``s.find(pat)``. */
  method Find(s: Bytes, pat: Bytes) returns (k: int)
    ensures k == -1 ==> forall i :: !Occurs(s, pat, i)
    ensures k != -1 ==> Occurs(s, pat, k) && forall i | i < k :: !Occurs(s, pat, i)
  {
    k := 0;
    while k + |pat| <= |s|
      invariant 0 <= k
      invariant forall i | i < k :: !Occurs(s, pat, i)
    {
      if s[k..k + |pat|] == pat {
        return;
      }
      k := k + 1;
    }
    k := -1;
  }

  /** ``s.rfind(pat, 0, end)``: the match has to lie inside the first ``end`` bytes. */
  method RFind(s: Bytes, pat: Bytes, end: nat) returns (k: int)
    requires end <= |s|
    ensures k == -1 ==> forall i | i + |pat| <= end :: !Occurs(s, pat, i)
    ensures k != -1 ==> Occurs(s, pat, k) && k + |pat| <= end
    ensures k != -1 ==> forall i | k < i && i + |pat| <= end :: !Occurs(s, pat, i)
  {
    k := end - |pat|;
    while 0 <= k
      invariant -1 <= k || end < |pat|
      invariant k + |pat| <= end
      invariant forall i | k < i && i + |pat| <= end :: !Occurs(s, pat, i)
    {
      if s[k..k + |pat|] == pat {
        return;
      }
      k := k - 1;
    }
    k := -1;
  }
}
