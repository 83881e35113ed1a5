/** What trial matching guarantees, and when it finds every pairing there is. */
module DleqProperties {
  import opened Wrappers
  import opened DleqMatching

  function Elements(a: seq<nat>): (r: set<nat>)
    ensures forall i :: i in r <==> i in a
  {
    if a == [] then {} else Elements(a[..|a| - 1]) + {a[|a| - 1]}
  }

  lemma {:induction false} DistinctSize(a: seq<nat>)
    requires Distinct(a)
    ensures |Elements(a)| == |a|
  {
    if a != [] {
      DistinctSize(a[..|a| - 1]);
      assert a[|a| - 1] !in a[..|a| - 1];
    }
  }

  lemma SubsetSize(a: set<nat>, b: set<nat>)
    requires a <= b
    ensures |a| <= |b| && |b - a| == |b| - |a|
  {
    assert b == a + (b - a);
  }

  /**
   * Conservation: on success every signature has a blank of its own, and what is
   * dropped is exactly the other blanks.
   */
  lemma Conservation(check: DleqCheck, ks: KeySet, sigs: seq<BlindSignature>, blanks: seq<PreMint>)
    requires Assign(check, ks, sigs, blanks).Ok?
    ensures var a := Assign(check, ks, sigs, blanks).value;
      var dropped := Indices(|blanks|) - Elements(a);
      && IsAssignment(check, ks, sigs, blanks, a) && TakesLeast(check, ks, sigs, blanks, a)
      && Elements(a) + dropped == Indices(|blanks|)
      && |sigs| + |dropped| == |blanks|
  {
    AssignSound(check, ks, sigs, blanks);
    var a := Assign(check, ks, sigs, blanks).value;
    DistinctSize(a);
    SubsetSize(Elements(a), Indices(|blanks|));
  }

  /** Pigeonhole: more signatures than blanks always fails. */
  lemma TooManySignatures(check: DleqCheck, ks: KeySet, sigs: seq<BlindSignature>, blanks: seq<PreMint>)
    requires |sigs| > |blanks|
    ensures Assign(check, ks, sigs, blanks).Err?
  {
    if Assign(check, ks, sigs, blanks).Ok? {
      Conservation(check, ks, sigs, blanks);
    }
  }

  /** The signature is refused, given the blanks that those before it took. */
  predicate RefusedFor(check: DleqCheck, ks: KeySet, sig: BlindSignature, blanks: seq<PreMint>, taken: seq<nat>, e: DleqError) {
    match e
    case ChangeSigMissingDleq(amount) => amount == sig.amount && sig.dleq.None?
    case NoKeyForAmount(amount, id) =>
      amount == sig.amount && id == ks.id && sig.dleq.Some? && sig.amount !in ks.keys
    case NoMatchingBlank(amount) =>
      && amount == sig.amount && sig.dleq.Some? && sig.amount in ks.keys
      && forall i :: 0 <= i < |blanks| && i !in taken ==> !check(sig, ks.keys[sig.amount], blanks[i].blindedSecret)
    case _ => false
  }

  /** A failure is that of the first signature that cannot be matched, with the reason that applies to it. */
  lemma {:induction false} FirstRefused(check: DleqCheck, ks: KeySet, sigs: seq<BlindSignature>, blanks: seq<PreMint>)
    returns (n: nat)
    requires Assign(check, ks, sigs, blanks).Err?
    ensures n < |sigs| && Assign(check, ks, sigs[..n], blanks).Ok?
    ensures RefusedFor(check, ks, sigs[n], blanks, Assign(check, ks, sigs[..n], blanks).value,
                       Assign(check, ks, sigs, blanks).error)
  {
    var last := |sigs| - 1;
    if Assign(check, ks, sigs[..last], blanks).Err? {
      n := FirstRefused(check, ks, sigs[..last], blanks);
      assert sigs[..last][..n] == sigs[..n];
    } else {
      n := last;
      FirstFitExactly(check, ks, sigs[last], blanks, Assign(check, ks, sigs[..last], blanks).value, 0);
    }
  }

  // ----- When a signature verifies against at most one blank -------------------

  predicate AtMostOne(check: DleqCheck, ks: KeySet, sigs: seq<BlindSignature>, blanks: seq<PreMint>) {
    forall k, i, j :: 0 <= k < |sigs| && 0 <= i < j < |blanks| && Verifies(check, ks, sigs[k], blanks[i].blindedSecret) ==>
      !Verifies(check, ks, sigs[k], blanks[j].blindedSecret)
  }

  /** Completeness: the matcher finds the pairing whenever there is one, so there is only one. */
  lemma {:induction false} FindsAssignment(check: DleqCheck, ks: KeySet, sigs: seq<BlindSignature>, blanks: seq<PreMint>,
                                           a: seq<nat>)
    requires AtMostOne(check, ks, sigs, blanks) && IsAssignment(check, ks, sigs, blanks, a)
    ensures Assign(check, ks, sigs, blanks) == Ok(a)
  {
    if sigs != [] {
      var last := |sigs| - 1;
      FindsAssignment(check, ks, sigs[..last], blanks, a[..last]);
      FirstFitExactly(check, ks, sigs[last], blanks, a[..last], 0);
      assert a[last] !in a[..last];
      assert a == a[..last] + [a[last]];
    }
  }

  /** The matcher succeeds exactly when an injective verifying assignment exists. */
  lemma MatchesIffPossible(check: DleqCheck, ks: KeySet, sigs: seq<BlindSignature>, blanks: seq<PreMint>)
    requires AtMostOne(check, ks, sigs, blanks)
    ensures Assign(check, ks, sigs, blanks).Ok? <==> exists a :: IsAssignment(check, ks, sigs, blanks, a)
  {
    if Assign(check, ks, sigs, blanks).Ok? {
      AssignSound(check, ks, sigs, blanks);
    } else if exists a :: IsAssignment(check, ks, sigs, blanks, a) {
      var a :| IsAssignment(check, ks, sigs, blanks, a);
      FindsAssignment(check, ks, sigs, blanks, a);
    }
  }

  /** No blank verifies both of two different positions. */
  predicate NoSharedBlank(check: DleqCheck, ks: KeySet, sigs: seq<BlindSignature>, blanks: seq<PreMint>) {
    forall k, l, i :: 0 <= k < l < |sigs| && 0 <= i < |blanks| && Verifies(check, ks, sigs[k], blanks[i].blindedSecret) ==>
      !Verifies(check, ks, sigs[l], blanks[i].blindedSecret)
  }

  predicate HasBlank(check: DleqCheck, ks: KeySet, sig: BlindSignature, blanks: seq<PreMint>) {
    exists i :: 0 <= i < |blanks| && Verifies(check, ks, sig, blanks[i].blindedSecret)
  }

  predicate EachHasBlank(check: DleqCheck, ks: KeySet, sigs: seq<BlindSignature>, blanks: seq<PreMint>) {
    forall k :: 0 <= k < |sigs| ==> HasBlank(check, ks, sigs[k], blanks)
  }

  /** It fails exactly on a signature without a blank, or on two that claim the same one. */
  lemma FailsOnlyOnConflict(check: DleqCheck, ks: KeySet, sigs: seq<BlindSignature>, blanks: seq<PreMint>)
    requires AtMostOne(check, ks, sigs, blanks)
    ensures Assign(check, ks, sigs, blanks).Ok? <==>
            EachHasBlank(check, ks, sigs, blanks) && NoSharedBlank(check, ks, sigs, blanks)
  {
    if Assign(check, ks, sigs, blanks).Ok? {
      AssignSound(check, ks, sigs, blanks);
      var a := Assign(check, ks, sigs, blanks).value;
      forall k, l, i | 0 <= k < l < |sigs| && 0 <= i < |blanks| && Verifies(check, ks, sigs[k], blanks[i].blindedSecret)
        ensures !Verifies(check, ks, sigs[l], blanks[i].blindedSecret)
      {
        assert i == a[k] != a[l];
      }
    } else if EachHasBlank(check, ks, sigs, blanks) && NoSharedBlank(check, ks, sigs, blanks) {
      var a := ItsBlanks(check, ks, sigs, blanks);
      FindsAssignment(check, ks, sigs, blanks, a);
    }
  }

  lemma {:induction false} ItsBlanks(check: DleqCheck, ks: KeySet, sigs: seq<BlindSignature>, blanks: seq<PreMint>)
    returns (a: seq<nat>)
    requires EachHasBlank(check, ks, sigs, blanks) && NoSharedBlank(check, ks, sigs, blanks)
    ensures IsAssignment(check, ks, sigs, blanks, a)
  {
    a := [];
    if sigs != [] {
      var last := |sigs| - 1;
      var front := ItsBlanks(check, ks, sigs[..last], blanks);
      assert HasBlank(check, ks, sigs[last], blanks);
      var i :| 0 <= i < |blanks| && Verifies(check, ks, sigs[last], blanks[i].blindedSecret);
      forall k | 0 <= k < last
        ensures front[k] != i
      {
        assert Verifies(check, ks, sigs[..last][k], blanks[front[k]].blindedSecret);
      }
      a := front + [i];
    }
  }

  // ----- Wire order ------------------------------------------------------------

  /** The pairing as a set of (signature, blank index) pairs. */
  ghost function Pairs(sigs: seq<BlindSignature>, a: seq<nat>): set<(BlindSignature, nat)> {
    set k | 0 <= k < |sigs| && k < |a| :: (sigs[k], a[k])
  }

  lemma SamePositions(sigs: seq<BlindSignature>, sigs': seq<BlindSignature>, k: nat)
    requires multiset(sigs) == multiset(sigs') && k < |sigs|
    ensures exists l :: 0 <= l < |sigs'| && sigs'[l] == sigs[k]
  {
    assert sigs[k] in multiset(sigs');
  }

  lemma {:induction false} Multiplicity(sigs: seq<BlindSignature>, k: nat, l: nat)
    requires k < l < |sigs| && sigs[k] == sigs[l]
    ensures multiset(sigs)[sigs[k]] >= 2
  {
    assert sigs == sigs[..l] + sigs[l..];
    assert sigs[k] in sigs[..l] && sigs[l] in sigs[l..];
  }

  lemma {:induction false} DistinctOnce(sigs: seq<BlindSignature>, s: BlindSignature)
    requires Distinct(sigs)
    ensures multiset(sigs)[s] <= 1
  {
    if sigs != [] {
      var last := |sigs| - 1;
      DistinctOnce(sigs[..last], s);
      assert sigs == sigs[..last] + [sigs[last]];
      if s == sigs[last] {
        assert s !in multiset(sigs[..last]);
      }
    }
  }

  /**
   * Wire-order independence: whatever order the same signatures arrive in, matching
   * succeeds or fails alike, and pairs each signature with the same blank.
   */
  lemma OrderIndependent(check: DleqCheck, ks: KeySet, sigs: seq<BlindSignature>, sigs': seq<BlindSignature>,
                         blanks: seq<PreMint>)
    requires AtMostOne(check, ks, sigs, blanks) && multiset(sigs') == multiset(sigs)
    requires Assign(check, ks, sigs, blanks).Ok?
    ensures Assign(check, ks, sigs', blanks).Ok?
    ensures Pairs(sigs', Assign(check, ks, sigs', blanks).value) == Pairs(sigs, Assign(check, ks, sigs, blanks).value)
  {
    AssignSound(check, ks, sigs, blanks);
    var a := Assign(check, ks, sigs, blanks).value;
    var a' := Reordered(check, ks, sigs, blanks, a, sigs');
    AtMostOneReordered(check, ks, sigs, sigs', blanks);
    FindsAssignment(check, ks, sigs', blanks, a');
    PairsCarried(check, ks, sigs, a, sigs', a', blanks);
    PairsCarried(check, ks, sigs', a', sigs, a, blanks);
  }

  lemma PairsCarried(check: DleqCheck, ks: KeySet, sigs: seq<BlindSignature>, a: seq<nat>,
                     sigs': seq<BlindSignature>, a': seq<nat>, blanks: seq<PreMint>)
    requires AtMostOne(check, ks, sigs, blanks) && multiset(sigs) == multiset(sigs')
    requires IsAssignment(check, ks, sigs, blanks, a) && IsAssignment(check, ks, sigs', blanks, a')
    ensures Pairs(sigs, a) <= Pairs(sigs', a')
  {
    forall p | p in Pairs(sigs, a)
      ensures p in Pairs(sigs', a')
    {
      var k :| 0 <= k < |sigs| && p == (sigs[k], a[k]);
      SamePositions(sigs, sigs', k);
      var l :| 0 <= l < |sigs'| && sigs'[l] == sigs[k];
      assert a'[l] == a[k];
    }
  }

  lemma AtMostOneReordered(check: DleqCheck, ks: KeySet, sigs: seq<BlindSignature>, sigs': seq<BlindSignature>,
                           blanks: seq<PreMint>)
    requires AtMostOne(check, ks, sigs, blanks) && multiset(sigs') == multiset(sigs)
    ensures AtMostOne(check, ks, sigs', blanks)
  {
    forall k, i, j | 0 <= k < |sigs'| && 0 <= i < j < |blanks| && Verifies(check, ks, sigs'[k], blanks[i].blindedSecret)
      ensures !Verifies(check, ks, sigs'[k], blanks[j].blindedSecret)
    {
      SamePositions(sigs', sigs, k);
      var l :| 0 <= l < |sigs| && sigs[l] == sigs'[k];
    }
  }

  /** The assignment carried over to another order of the same signatures. */
  lemma Reordered(check: DleqCheck, ks: KeySet, sigs: seq<BlindSignature>, blanks: seq<PreMint>, a: seq<nat>,
                  sigs': seq<BlindSignature>)
    returns (a': seq<nat>)
    requires AtMostOne(check, ks, sigs, blanks) && IsAssignment(check, ks, sigs, blanks, a)
    requires multiset(sigs') == multiset(sigs)
    ensures IsAssignment(check, ks, sigs', blanks, a')
  {
    forall k, l | 0 <= k < l < |sigs|
      ensures sigs[k] != sigs[l]
    {
      assert a[k] != a[l];
    }
    forall s ensures multiset(sigs)[s] <= 1 { DistinctOnce(sigs, s); }
    forall k, l | 0 <= k < l < |sigs'|
      ensures sigs'[k] != sigs'[l]
    {
      if sigs'[k] == sigs'[l] {
        Multiplicity(sigs', k, l);
      }
    }
    forall k | 0 <= k < |sigs'|
      ensures exists l :: 0 <= l < |sigs| && sigs[l] == sigs'[k]
    {
      SamePositions(sigs', sigs, k);
    }
    a' := seq(|sigs'|, k requires 0 <= k < |sigs'| => var l :| 0 <= l < |sigs| && sigs[l] == sigs'[k]; a[l]);
    MultisetSize(sigs, sigs');
  }

  lemma MultisetSize(sigs: seq<BlindSignature>, sigs': seq<BlindSignature>)
    requires multiset(sigs') == multiset(sigs)
    ensures |sigs'| == |sigs|
  {
    assert |multiset(sigs)| == |sigs| && |multiset(sigs')| == |sigs'|;
  }

  // ----- The order of the result -----------------------------------------------

  predicate Increasing(a: seq<nat>) {
    forall k, l :: 0 <= k < l < |a| ==> a[k] < a[l]
  }

  /** The signatures arrive in the order of the blanks they verify against. */
  predicate ArriveInBlankOrder(check: DleqCheck, ks: KeySet, sigs: seq<BlindSignature>, blanks: seq<PreMint>) {
    forall k, l, i, j | 0 <= k < l < |sigs| && 0 <= i < |blanks| && 0 <= j < |blanks|
      && Verifies(check, ks, sigs[k], blanks[i].blindedSecret) && Verifies(check, ks, sigs[l], blanks[j].blindedSecret)
      :: i < j
  }

  /** The matched blanks come out in the order they were sent exactly when the signatures arrived in it. */
  lemma BlankOrderIff(check: DleqCheck, ks: KeySet, sigs: seq<BlindSignature>, blanks: seq<PreMint>)
    requires AtMostOne(check, ks, sigs, blanks) && Assign(check, ks, sigs, blanks).Ok?
    ensures Increasing(Assign(check, ks, sigs, blanks).value) <==> ArriveInBlankOrder(check, ks, sigs, blanks)
  {
    AssignSound(check, ks, sigs, blanks);
    var a := Assign(check, ks, sigs, blanks).value;
    if Increasing(a) {
      forall k, l, i, j | 0 <= k < l < |sigs| && 0 <= i < |blanks| && 0 <= j < |blanks|
        && Verifies(check, ks, sigs[k], blanks[i].blindedSecret) && Verifies(check, ks, sigs[l], blanks[j].blindedSecret)
        ensures i < j
      {
        ItsOnlyBlank(check, ks, sigs, blanks, k, i, a[k]);
        ItsOnlyBlank(check, ks, sigs, blanks, l, j, a[l]);
      }
    }
  }

  lemma ItsOnlyBlank(check: DleqCheck, ks: KeySet, sigs: seq<BlindSignature>, blanks: seq<PreMint>, k: nat, i: nat, j: nat)
    requires AtMostOne(check, ks, sigs, blanks) && k < |sigs| && i < |blanks| && j < |blanks|
    requires Verifies(check, ks, sigs[k], blanks[i].blindedSecret) && Verifies(check, ks, sigs[k], blanks[j].blindedSecret)
    ensures i == j
  {
  }

  /** Signatures that arrive the other way round come out the other way round. */
  lemma WireOrderKept()
    returns (check: DleqCheck, ks: KeySet, sigs: seq<BlindSignature>, blanks: seq<PreMint>)
    ensures AtMostOne(check, ks, sigs, blanks) && Assign(check, ks, sigs, blanks) == Ok([1, 0])
  {
    var proof := Some(DleqProof(0, 0));
    check := (sig: BlindSignature, key: nat, point: nat) => sig.c == point;
    ks := KeySet("id", map[1 := 7]);
    blanks := [PreMint(0, 0, ""), PreMint(1, 0, "")];
    sigs := [BlindSignature(1, 1, proof), BlindSignature(1, 0, proof)];
    FindsAssignment(check, ks, sigs, blanks, [1, 0]);
  }

  // ----- The two verifiers -----------------------------------------------------

  predicate PositionallyOk(check: DleqCheck, ks: KeySet, sigs: seq<BlindSignature>, points: seq<nat>) {
    |sigs| == |points| && forall i :: 0 <= i < |sigs| ==> Tolerated(check, ks, sigs[i], points[i])
  }

  function Points(blanks: seq<PreMint>): seq<nat> {
    seq(|blanks|, i requires 0 <= i < |blanks| => blanks[i].blindedSecret)
  }

  /** Whatever the matcher returns passes the positional verifier. */
  lemma MatchedPassesPositional(check: DleqCheck, ks: KeySet, sigs: seq<BlindSignature>, blanks: seq<PreMint>)
    requires Assign(check, ks, sigs, blanks).Ok?
    ensures var a := Assign(check, ks, sigs, blanks).value;
      && (forall k :: 0 <= k < |a| ==> a[k] < |blanks|)
      && PositionallyOk(check, ks, sigs, Points(Pick(blanks, a)))
  {
    AssignSound(check, ks, sigs, blanks);
  }

  /** If the positions are right and every DLEQ is present, the matcher returns the positional pairing. */
  lemma PositionalIsMatched(check: DleqCheck, ks: KeySet, sigs: seq<BlindSignature>, blanks: seq<PreMint>)
    requires AtMostOne(check, ks, sigs, blanks)
    requires PositionallyOk(check, ks, sigs, Points(blanks)) && forall i :: 0 <= i < |sigs| ==> sigs[i].dleq.Some?
    ensures Assign(check, ks, sigs, blanks).Ok?
    ensures var a := Assign(check, ks, sigs, blanks).value;
      (forall k :: 0 <= k < |a| ==> a[k] < |blanks|) && Pick(blanks, a) == blanks
  {
    var identity: seq<nat> := seq(|sigs|, k => k);
    forall k | 0 <= k < |sigs|
      ensures Verifies(check, ks, sigs[k], blanks[k].blindedSecret)
    {
      assert Tolerated(check, ks, sigs[k], Points(blanks)[k]);
    }
    FindsAssignment(check, ks, sigs, blanks, identity);
  }

  // ----- Without the assumption ------------------------------------------------

  /**
   * Without it greedy matching is neither complete nor independent of wire order: a
   * signature that verifies against both blanks takes the only one the next needs.
   */
  lemma GreedyIncomplete()
    returns (check: DleqCheck, ks: KeySet, sigs: seq<BlindSignature>, blanks: seq<PreMint>)
    ensures IsAssignment(check, ks, sigs, blanks, [1, 0])
    ensures Assign(check, ks, sigs, blanks) == Err(NoMatchingBlank(1))
    ensures |sigs| == 2 && Assign(check, ks, [sigs[1], sigs[0]], blanks) == Ok([0, 1])
  {
    var proof := Some(DleqProof(0, 0));
    var both, first := BlindSignature(1, 0, proof), BlindSignature(1, 1, proof);
    check := (sig: BlindSignature, key: nat, point: nat) => sig.c == 0 || point == 0;
    ks := KeySet("id", map[1 := 7]);
    blanks := [PreMint(0, 0, ""), PreMint(1, 0, "")];
    sigs := [both, first];
    var none: seq<nat> := [];
    assert Assign(check, ks, [], blanks) == Ok(none);
    assert FirstFit(check, ks, both, blanks, [], 0) == Some(0);
    assert FirstFit(check, ks, first, blanks, [], 0) == Some(0);
    AssignNext(check, ks, [], both, blanks, none);
    AssignNext(check, ks, [], first, blanks, none);
    assert [] + [both] == [both] && [] + [first] == [first];
    assert none + [0] == [0];
    assert FirstFit(check, ks, first, blanks, [0], 1) == FirstFit(check, ks, first, blanks, [0], 2) == None;
    assert FirstFit(check, ks, both, blanks, [0], 1) == Some(1);
    AssignNext(check, ks, [both], first, blanks, [0]);
    assert FirstFit(check, ks, both, blanks, [0], 0) == Some(1);
    AssignNext(check, ks, [first], both, blanks, [0]);
    assert [0] + [1] == [0, 1];
    assert [both] + [first] == sigs && [first] + [both] == [sigs[1], sigs[0]];
  }

  lemma AssignNext(check: DleqCheck, ks: KeySet, front: seq<BlindSignature>, sig: BlindSignature, blanks: seq<PreMint>,
                   taken: seq<nat>)
    requires Assign(check, ks, front, blanks) == Ok(taken) && sig.dleq.Some? && sig.amount in ks.keys
    ensures Assign(check, ks, front + [sig], blanks) ==
            match FirstFit(check, ks, sig, blanks, taken, 0)
            case None => Err(NoMatchingBlank(sig.amount))
            case Some(i) => Ok(taken + [i])
  {
    assert (front + [sig])[..|front|] == front;
  }
}
