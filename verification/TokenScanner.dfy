/** Finding an encoded Cashu token in arbitrary text. */
module TokenScanner {
  import opened Bytes
  import opened Wrappers

  // "cashu", 'A', 'B' and '='.
  const CASHU: bytes := [99, 97, 115, 104, 117]
  const VERSION_A: byte := 65
  const VERSION_B: byte := 66
  const PAD: byte := 61

  /** The URL-safe alphabet of section 5 of RFC 4648. */
  predicate IsTokenChar(b: byte) {
    65 <= b <= 90 || 97 <= b <= 122 || 48 <= b <= 57 || b == 95 || b == 45
  }

  /** The same alphabet by its characters. */
  lemma AlphabetIff(b: byte)
    ensures var c := b as char;
      IsTokenChar(b) <==> 'A' <= c <= 'Z' || 'a' <= c <= 'z' || '0' <= c <= '9' || c == '-' || c == '_'
  {
  }

  /** The prefix and the padding, as characters. */
  lemma ConstantsSpell()
    ensures |CASHU| == 5 && forall i :: 0 <= i < 5 ==> CASHU[i] as int == "cashu"[i] as int
    ensures VERSION_A as int == 'A' as int && VERSION_B as int == 'B' as int && PAD as int == '=' as int
  {
  }

  predicate PrefixAt(s: bytes, i: nat) {
    i + 6 <= |s| && s[i..i + 5] == CASHU && (s[i + 5] == VERSION_A || s[i + 5] == VERSION_B)
  }

  // ----- The grammar -----------------------------------------------------------

  /** The span is a prefix, alphabet bytes up to `n`, and at most two pad bytes. */
  predicate Shaped(s: bytes, i: nat, n: nat, j: nat) {
    && PrefixAt(s, i) && i + 6 <= n <= j <= |s| && j <= n + 2
    && (forall k :: i + 6 <= k < n ==> IsTokenChar(s[k]))
    && (forall k :: n <= k < j ==> s[k] == PAD)
  }

  datatype Grammar = Accepted | Documented

  /**
   * `Documented` is cashu[AB][A-Za-z0-9_-]+={0,2}.  `Accepted` only asks that
   * something follows the prefix, be it padding.
   */
  ghost predicate Matches(g: Grammar, s: bytes, i: nat, j: nat) {
    exists n: nat :: Shaped(s, i, n, j) && i + 6 < if g == Documented then n else j
  }

  /** The longest match at the first place that has one. */
  ghost predicate LeftmostLongest(g: Grammar, s: bytes, i: nat, j: nat) {
    && Matches(g, s, i, j)
    && (forall i': nat, j': nat :: Matches(g, s, i', j') ==> i <= i')
    && (forall j': nat :: Matches(g, s, i, j') ==> j' <= j)
  }

  ghost predicate Absent(g: Grammar, s: bytes) {
    forall i: nat, j: nat :: !Matches(g, s, i, j)
  }

  // ----- The scan --------------------------------------------------------------

  /** A prefix followed by something a match can go on with. */
  predicate Candidate(s: bytes, i: nat) {
    PrefixAt(s, i) && i + 6 < |s| && (IsTokenChar(s[i + 6]) || s[i + 6] == PAD)
  }

  lemma MatchIsCandidate(g: Grammar, s: bytes, i: nat, j: nat)
    requires Matches(g, s, i, j)
    ensures Candidate(s, i)
  {
  }

  /** No prefix starts inside another. */
  lemma PrefixesApart(s: bytes, i: nat, k: nat)
    requires PrefixAt(s, i) && i < k < i + 6
    ensures !PrefixAt(s, k)
  {
    var word := s[i..i + 5];
    assert forall m :: 0 <= m < 5 ==> word[m] == s[i + m];
    StartsWithC(s, k);
  }

  lemma StartsWithC(s: bytes, i: nat)
    ensures PrefixAt(s, i) ==> s[i] == CASHU[0]
  {
    assert PrefixAt(s, i) ==> s[i] == s[i..i + 5][0];
  }

  /** Nothing longer than the run of alphabet bytes and two pads matches. */
  lemma NoLonger(g: Grammar, s: bytes, i: nat, n: nat, j: nat, j': nat)
    requires Shaped(s, i, n, j) && Matches(g, s, i, j')
    requires n < |s| ==> !IsTokenChar(s[n])
    requires j == n + 2 || j == |s| || s[j] != PAD
    ensures j' <= j
  {
  }

  method FindTokenCandidate(input: bytes) returns (r: Option<bytes>)
    ensures r.None? ==> Absent(Accepted, input)
    ensures r.Some? ==> exists i: nat, j: nat :: LeftmostLongest(Accepted, input, i, j) && r.value == input[i..j]
  {
    var i := 0;
    while i + 6 < |input|
      invariant forall k: nat :: k < i ==> !Candidate(input, k)
    {
      if input[i..i + 5] == CASHU && (input[i + 5] == VERSION_A || input[i + 5] == VERSION_B) {
        var end := i + 6;
        while end < |input| && IsTokenChar(input[end])
          invariant i + 6 <= end <= |input|
          invariant forall k :: i + 6 <= k < end ==> IsTokenChar(input[k])
        {
          end := end + 1;
        }
        ghost var n := end;
        var pad := 0;
        while pad < 2 && end < |input| && input[end] == PAD
          invariant 0 <= pad <= 2 && end == n + pad <= |input|
          invariant forall k :: n <= k < end ==> input[k] == PAD
        {
          end := end + 1;
          pad := pad + 1;
        }
        assert Shaped(input, i, n, end);
        if end > i + 6 {
          FoundIsFirst(input, i, n, end);
          return Some(input[i..end]);
        }
        forall k: nat | i < k < end ensures !Candidate(input, k) {
          PrefixesApart(input, i, k);
        }
        i := end;
        continue;
      }
      i := i + 1;
    }
    forall i': nat, j': nat ensures !Matches(Accepted, input, i', j') {
      if Matches(Accepted, input, i', j') {
        MatchIsCandidate(Accepted, input, i', j');
      }
    }
    return None;
  }

  lemma FoundIsFirst(s: bytes, i: nat, n: nat, j: nat)
    requires forall k: nat :: k < i ==> !Candidate(s, k)
    requires Shaped(s, i, n, j) && i + 6 < j
    requires n < |s| ==> !IsTokenChar(s[n])
    requires j == n + 2 || j == |s| || s[j] != PAD
    ensures LeftmostLongest(Accepted, s, i, j)
  {
    forall i': nat, j': nat | Matches(Accepted, s, i', j') ensures i <= i' {
      MatchIsCandidate(Accepted, s, i', j');
    }
    forall j': nat | Matches(Accepted, s, i, j') ensures j' <= j {
      NoLonger(Accepted, s, i, n, j, j');
    }
  }

  /** `extract_cashu_token`: the first candidate or nothing; no further one is tried. */
  method ExtractCashuToken(input: bytes, decodes: bytes -> bool) returns (r: Option<bytes>)
    ensures r.Some? ==> decodes(r.value)
    ensures r.Some? ==> exists i: nat, j: nat :: LeftmostLongest(Accepted, input, i, j) && r.value == input[i..j]
    ensures r.None? ==> forall i: nat, j: nat :: LeftmostLongest(Accepted, input, i, j) ==> !decodes(input[i..j])
  {
    var candidate := FindTokenCandidate(input);
    if candidate.None? || !decodes(candidate.value) {
      forall i: nat, j: nat | LeftmostLongest(Accepted, input, i, j) ensures !decodes(input[i..j]) {
        var i': nat, j': nat :| LeftmostLongest(Accepted, input, i', j') && candidate.value == input[i'..j'];
        OnlyOne(Accepted, input, i, j, i', j');
      }
      return None;
    }
    return candidate;
  }

  /** The leftmost longest match is determined by the text. */
  lemma OnlyOne(g: Grammar, s: bytes, i: nat, j: nat, i': nat, j': nat)
    requires LeftmostLongest(g, s, i, j) && LeftmostLongest(g, s, i', j')
    ensures i == i' && j == j'
  {
  }

  // ----- The documented grammar ------------------------------------------------

  /** The first candidate is a prefix with nothing but padding behind it, as in "cashuA=". */
  predicate FirstIsBare(s: bytes) {
    exists i: nat :: i + 6 < |s| && Candidate(s, i) && s[i + 6] == PAD && forall k: nat :: k < i ==> !Candidate(s, k)
  }

  ghost predicate Agree(s: bytes) {
    && (Absent(Accepted, s) <==> Absent(Documented, s))
    && (forall i: nat, j: nat :: LeftmostLongest(Accepted, s, i, j) <==> LeftmostLongest(Documented, s, i, j))
  }

  lemma CandidateMatches(s: bytes, i: nat)
    requires Candidate(s, i)
    ensures Matches(Accepted, s, i, i + 7)
    ensures s[i + 6] != PAD ==> Matches(Documented, s, i, i + 7)
  {
    assert Shaped(s, i, if s[i + 6] == PAD then i + 6 else i + 7, i + 7);
  }

  /** The grammars differ only behind a prefix that is followed by padding. */
  lemma SameMatches(s: bytes, i: nat, j: nat)
    requires i + 6 < |s| && s[i + 6] != PAD
    ensures Matches(Accepted, s, i, j) <==> Matches(Documented, s, i, j)
  {
    if Matches(Accepted, s, i, j) {
      var n: nat :| Shaped(s, i, n, j) && i + 6 < j;
      assert n > i + 6;
    }
  }

  lemma FirstCandidate(s: bytes, i: nat) returns (first: nat)
    requires Candidate(s, i)
    ensures first <= i && Candidate(s, first) && forall k: nat :: k < first ==> !Candidate(s, k)
  {
    first := 0;
    while !Candidate(s, first)
      invariant first <= i && forall k: nat :: k < first ==> !Candidate(s, k)
      decreases i - first
    {
      first := first + 1;
    }
  }

  /** The scan finds what the documented grammar describes exactly when the first candidate is not bare. */
  lemma AgreesIff(s: bytes)
    ensures Agree(s) <==> !FirstIsBare(s)
  {
    if FirstIsBare(s) {
      BareDisagrees(s);
    } else {
      assert Absent(Accepted, s) ==> Absent(Documented, s) by {
        assert forall i: nat, j: nat :: Matches(Documented, s, i, j) ==> Matches(Accepted, s, i, j);
      }
      forall i: nat, j: nat ensures Matches(Accepted, s, i, j) ==> !Absent(Documented, s) {
        if Matches(Accepted, s, i, j) {
          MatchIsCandidate(Accepted, s, i, j);
          var first := FirstCandidate(s, i);
          CandidateMatches(s, first);
        }
      }
      forall i: nat, j: nat ensures LeftmostLongest(Accepted, s, i, j) <==> LeftmostLongest(Documented, s, i, j) {
        SameAnswer(s, i, j);
      }
    }
  }

  lemma SameAnswer(s: bytes, i: nat, j: nat)
    requires !FirstIsBare(s)
    ensures LeftmostLongest(Accepted, s, i, j) <==> LeftmostLongest(Documented, s, i, j)
  {
    if exists g :: LeftmostLongest(g, s, i, j) {
      var g :| LeftmostLongest(g, s, i, j);
      MatchIsCandidate(g, s, i, j);
      var first := FirstCandidate(s, i);
      CandidateMatches(s, first);
      assert first == i;
      forall j': nat ensures Matches(Accepted, s, i, j') <==> Matches(Documented, s, i, j') {
        SameMatches(s, i, j');
      }
      forall h, i': nat, j': nat | Matches(h, s, i', j') ensures i <= i' {
        MatchIsCandidate(h, s, i', j');
      }
    }
  }

  lemma BareNotDocumented(s: bytes, i: nat, j: nat)
    requires i + 6 < |s| && s[i + 6] == PAD
    ensures !Matches(Documented, s, i, j)
  {
  }

  lemma BareDisagrees(s: bytes)
    requires FirstIsBare(s)
    ensures !Agree(s)
  {
    var i: nat :| i + 6 < |s| && Candidate(s, i) && s[i + 6] == PAD && forall k: nat :: k < i ==> !Candidate(s, k);
    var j := if i + 7 < |s| && s[i + 7] == PAD then i + 8 else i + 7;
    assert Shaped(s, i, i + 6, j);
    FoundIsFirst(s, i, i + 6, j);
    BareNotDocumented(s, i, j);
  }
}
