/**
 The regular expressions `/\b(alt1|alt2|...)\b/i` the AI service uses to spot
 country names, with JavaScript's backtracking semantics: the match starts at
 the leftmost position where some alternative fits, and at that position the
 alternatives are tried in the order written.

 The alternatives are lower-case ASCII. Without the `u` flag, case-insensitive
 matching never equates a non-ASCII character with an ASCII one, so comparing
 the ASCII lower-casing of the input with the alternative is exact, and `\b`
 looks only at the ASCII word characters.
 */
module WordMatch {
  import opened Text

  predicate IsWordChar(c: char) {
    'a' <= c <= 'z' || 'A' <= c <= 'Z' || '0' <= c <= '9' || c == '_'
  }

  /** `\b` holds at position `p` of `s`. */
  predicate IsBoundary(s: string, p: nat)
    requires p <= |s|
  {
    (p > 0 && IsWordChar(s[p - 1])) != (p < |s| && IsWordChar(s[p]))
  }

  /** `\b(a)\b` matches `s` at position `i`, ignoring ASCII case. */
  predicate MatchesAt(s: string, i: nat, a: string) {
    && i + |a| <= |s|
    && IsBoundary(s, i)
    && Lower(s[i..i + |a|]) == a
    && IsBoundary(s, i + |a|)
  }

  /** Where a match was found, and which alternative produced it. */
  datatype Found = Found(pos: nat, alt: string)

  /** The first alternative, in the order written, that matches at `i`. */
  function FirstAltAt(s: string, i: nat, alts: seq<string>): (r: Option<string>)
    ensures r.Some? ==> exists k :: 0 <= k < |alts| && alts[k] == r.value
                          && MatchesAt(s, i, alts[k])
                          && forall j :: 0 <= j < k ==> !MatchesAt(s, i, alts[j])
    ensures r.None? ==> forall a :: a in alts ==> !MatchesAt(s, i, a)
  {
    if alts == [] then None
    else if MatchesAt(s, i, alts[0]) then Some(alts[0])
    else
      var r := FirstAltAt(s, i, alts[1..]);
      assert forall j :: 0 < j < |alts| ==> alts[j] == alts[1..][j - 1];
      r
  }

  /** The leftmost match at a position not before `from`. */
  function SearchFrom(s: string, alts: seq<string>, from: nat): (r: Option<Found>)
    requires from <= |s| + 1
    ensures r.Some? ==> from <= r.value.pos && r.value.alt in alts
                        && MatchesAt(s, r.value.pos, r.value.alt)
    ensures r.Some? ==> forall p: nat, a :: from <= p < r.value.pos && a in alts ==> !MatchesAt(s, p, a)
    ensures r.None? ==> forall p: nat, a :: from <= p && a in alts ==> !MatchesAt(s, p, a)
    ensures r.Some? ==> FirstAltAt(s, r.value.pos, alts) == Some(r.value.alt)
    decreases |s| + 1 - from
  {
    if from > |s| then None
    else match FirstAltAt(s, from, alts)
      case Some(a) => Some(Found(from, a))
      case None => SearchFrom(s, alts, from + 1)
  }

  /**
   `s.match(/\b(alts)\b/i)`: the leftmost position where some alternative
   matches, and there the first alternative in the order written.
   */
  function Search(s: string, alts: seq<string>): (r: Option<Found>)
    ensures r.Some? ==> r.value.alt in alts && MatchesAt(s, r.value.pos, r.value.alt)
    ensures r.Some? ==> forall p: nat, a :: p < r.value.pos && a in alts ==> !MatchesAt(s, p, a)
    ensures r.None? <==> forall p: nat, a :: a in alts ==> !MatchesAt(s, p, a)
    ensures r.Some? ==> FirstAltAt(s, r.value.pos, alts) == Some(r.value.alt)
  {
    SearchFrom(s, alts, 0)
  }

  /** Matching ignores ASCII case in the input. */
  lemma MatchesAtLower(s: string, i: nat, a: string)
    ensures MatchesAt(s, i, a) <==> MatchesAt(Lower(s), i, a)
  {
    if i + |a| <= |s| {
      LowerSlice(s, i, i + |a|);
      LowerIdempotent(s[i..i + |a|]);
    }
  }
}
