/**
 * Pairing blind signatures with the blanks they sign by trial DLEQ verification
 * (NUT-12), as used for NUT-08 change, and the positional verifier beside it.
 *
 * The cryptographic check is a parameter: `check(sig, pubkey, point)` is whether
 * the signature's DLEQ proof verifies, and every statement is for all checks.
 */
module DleqMatching {
  import opened Wrappers

  datatype DleqProof = DleqProof(e: nat, s: nat)
  datatype BlindSignature = BlindSignature(amount: nat, c: nat, dleq: Option<DleqProof>)
  datatype PreMint = PreMint(blindedSecret: nat, r: nat, secret: string)
  datatype KeySet = KeySet(id: string, keys: map<nat, nat>)

  type DleqCheck = (BlindSignature, nat, nat) -> bool

  datatype DleqError =
    | BlindSignatureInvalid(amount: nat)
    | NoKeyForAmount(amount: nat, keysetId: string)
    | CountMismatch(sigs: nat, msgs: nat)
    | ChangeSigMissingDleq(amount: nat)
    | NoMatchingBlank(amount: nat)

  // The signatures and blanks returned to the caller, in parallel.
  datatype MatchedChange = MatchedChange(signatures: seq<BlindSignature>, preMints: seq<PreMint>)

  /** The signature carries a DLEQ proof that verifies for this blinded message. */
  predicate Verifies(check: DleqCheck, ks: KeySet, sig: BlindSignature, point: nat) {
    sig.dleq.Some? && sig.amount in ks.keys && check(sig, ks.keys[sig.amount], point)
  }

  // ----- The positional verifier -----------------------------------------------

  predicate Tolerated(check: DleqCheck, ks: KeySet, sig: BlindSignature, point: nat) {
    sig.dleq.None? || Verifies(check, ks, sig, point)
  }

  /** `verify_blind_signatures`: the whole batch is tolerated, or the first offender is named. */
  method VerifyBlindSignatures(check: DleqCheck, sigs: seq<BlindSignature>, points: seq<nat>, ks: KeySet)
    returns (r: Result<(), DleqError>)
    ensures r.Ok? <==> |sigs| == |points| && forall i :: 0 <= i < |sigs| ==>
              sigs[i].dleq.None? || (sigs[i].amount in ks.keys && check(sigs[i], ks.keys[sigs[i].amount], points[i]))
    ensures |sigs| != |points| ==> r == Err(CountMismatch(|sigs|, |points|))
    ensures r.Err? && |sigs| == |points| ==>
      exists i :: 0 <= i < |sigs| && !Tolerated(check, ks, sigs[i], points[i])
        && r.error == (if sigs[i].amount in ks.keys then BlindSignatureInvalid(sigs[i].amount)
                       else NoKeyForAmount(sigs[i].amount, ks.id))
        && forall j :: 0 <= j < i ==> Tolerated(check, ks, sigs[j], points[j])
  {
    if |sigs| != |points| {
      return Err(CountMismatch(|sigs|, |points|));
    }
    for i := 0 to |sigs|
      invariant forall j :: 0 <= j < i ==> Tolerated(check, ks, sigs[j], points[j])
    {
      var sig := sigs[i];
      if sig.dleq.None? {
        continue;
      }
      if sig.amount !in ks.keys {
        return Err(NoKeyForAmount(sig.amount, ks.id));
      }
      if !check(sig, ks.keys[sig.amount], points[i]) {
        return Err(BlindSignatureInvalid(sig.amount));
      }
    }
    return Ok(());
  }

  // ----- The matcher -----------------------------------------------------------

  /** The least blank at or after `i` that is still free and verifies. */
  function FirstFit(check: DleqCheck, ks: KeySet, sig: BlindSignature, blanks: seq<PreMint>, taken: seq<nat>, i: nat)
    : Option<nat>
    requires i <= |blanks|
    decreases |blanks| - i
  {
    if i == |blanks| then None
    else if i !in taken && Verifies(check, ks, sig, blanks[i].blindedSecret) then Some(i)
    else FirstFit(check, ks, sig, blanks, taken, i + 1)
  }

  /** The blank each signature gets, signature by signature, or the first reason to give up. */
  function Assign(check: DleqCheck, ks: KeySet, sigs: seq<BlindSignature>, blanks: seq<PreMint>)
    : Result<seq<nat>, DleqError>
  {
    if sigs == [] then Ok([])
    else
      var sig := sigs[|sigs| - 1];
      match Assign(check, ks, sigs[..|sigs| - 1], blanks)
      case Err(e) => Err(e)
      case Ok(taken) =>
        if sig.dleq.None? then Err(ChangeSigMissingDleq(sig.amount))
        else if sig.amount !in ks.keys then Err(NoKeyForAmount(sig.amount, ks.id))
        else
          match FirstFit(check, ks, sig, blanks, taken, 0)
          case None => Err(NoMatchingBlank(sig.amount))
          case Some(i) => Ok(taken + [i])
  }

  function Indices(n: nat): (r: set<nat>)
    ensures forall i: nat :: i in r <==> i < n
    ensures |r| == n
  {
    if n == 0 then {} else Indices(n - 1) + {n - 1}
  }

  function Pick(blanks: seq<PreMint>, indices: seq<nat>): seq<PreMint>
    requires forall k :: 0 <= k < |indices| ==> indices[k] < |blanks|
  {
    seq(|indices|, k requires 0 <= k < |indices| => blanks[indices[k]])
  }

  predicate Distinct<T(==)>(s: seq<T>) {
    forall i, j :: 0 <= i < j < |s| ==> s[i] != s[j]
  }

  /** A pairing of every signature with a blank of its own that it verifies against. */
  predicate IsAssignment(check: DleqCheck, ks: KeySet, sigs: seq<BlindSignature>, blanks: seq<PreMint>, a: seq<nat>) {
    && |a| == |sigs| && Distinct(a)
    && forall k :: 0 <= k < |a| ==> a[k] < |blanks| && Verifies(check, ks, sigs[k], blanks[a[k]].blindedSecret)
  }

  /** Each signature's blank is the least one the signatures before it left free. */
  predicate TakesLeast(check: DleqCheck, ks: KeySet, sigs: seq<BlindSignature>, blanks: seq<PreMint>, a: seq<nat>)
    requires |a| == |sigs|
  {
    forall k, i :: 0 <= k < |a| && 0 <= i < a[k] && i < |blanks| && Verifies(check, ks, sigs[k], blanks[i].blindedSecret) ==>
      i in a[..k]
  }

  lemma {:induction false} FirstFitExactly(check: DleqCheck, ks: KeySet, sig: BlindSignature, blanks: seq<PreMint>,
                                           taken: seq<nat>, i: nat)
    requires i <= |blanks|
    ensures var r := FirstFit(check, ks, sig, blanks, taken, i);
      var bound := if r.Some? then r.value else |blanks|;
      && i <= bound <= |blanks|
      && (forall j :: i <= j < bound ==> j in taken || !Verifies(check, ks, sig, blanks[j].blindedSecret))
      && (r.Some? ==> bound < |blanks| && bound !in taken && Verifies(check, ks, sig, blanks[bound].blindedSecret))
    decreases |blanks| - i
  {
    if i < |blanks| {
      FirstFitExactly(check, ks, sig, blanks, taken, i + 1);
    }
  }

  /** Success is an injective verifying assignment, chosen greedily. */
  lemma {:induction false} AssignSound(check: DleqCheck, ks: KeySet, sigs: seq<BlindSignature>, blanks: seq<PreMint>)
    requires Assign(check, ks, sigs, blanks).Ok?
    ensures var a := Assign(check, ks, sigs, blanks).value;
      IsAssignment(check, ks, sigs, blanks, a) && TakesLeast(check, ks, sigs, blanks, a)
  {
    if sigs != [] {
      var front := sigs[..|sigs| - 1];
      AssignSound(check, ks, front, blanks);
      var taken := Assign(check, ks, front, blanks).value;
      FirstFitExactly(check, ks, sigs[|sigs| - 1], blanks, taken, 0);
      var a := Assign(check, ks, sigs, blanks).value;
      assert a[..|taken|] == taken;
      assert forall k :: 0 <= k < |taken| ==> a[..k] == taken[..k];
    }
  }

  /** `match_blind_signatures_to_pre_mints`. */
  method MatchBlindSignatures(check: DleqCheck, sigs: seq<BlindSignature>, blanks: seq<PreMint>, ks: KeySet)
    returns (r: Result<MatchedChange, DleqError>)
    ensures match Assign(check, ks, sigs, blanks)
      case Err(e) => r == Err(e)
      case Ok(a) =>
        && (forall k :: 0 <= k < |a| ==> a[k] < |blanks|)
        && r == Ok(MatchedChange(sigs, Pick(blanks, a)))
  {
    var unmatched := Indices(|blanks|);
    var matchedSigs: seq<BlindSignature> := [];
    var matchedPreMints: seq<PreMint> := [];
    ghost var a: seq<nat> := [];
    for n := 0 to |sigs|
      invariant Assign(check, ks, sigs[..n], blanks) == Ok(a)
      invariant forall k :: 0 <= k < |a| ==> a[k] < |blanks|
      invariant unmatched == set i: nat | i < |blanks| && i !in a
      invariant matchedSigs == sigs[..n] && matchedPreMints == Pick(blanks, a)
    {
      var sig := sigs[n];
      assert sigs[..n + 1][..n] == sigs[..n];
      if sig.dleq.None? {
        AssignStops(check, ks, sigs, blanks, n + 1);
        return Err(ChangeSigMissingDleq(sig.amount));
      }
      if sig.amount !in ks.keys {
        AssignStops(check, ks, sigs, blanks, n + 1);
        return Err(NoKeyForAmount(sig.amount, ks.id));
      }
      var matchedIndex: Option<nat> := None;
      for i := 0 to |blanks|
        invariant matchedIndex.None?
        invariant FirstFit(check, ks, sig, blanks, a, i) == FirstFit(check, ks, sig, blanks, a, 0)
      {
        if i in unmatched && check(sig, ks.keys[sig.amount], blanks[i].blindedSecret) {
          matchedIndex := Some(i);
          break;
        }
      }
      if matchedIndex.None? {
        AssignStops(check, ks, sigs, blanks, n + 1);
        return Err(NoMatchingBlank(sig.amount));
      }
      var i := matchedIndex.value;
      unmatched := unmatched - {i};
      matchedSigs := matchedSigs + [sig];
      matchedPreMints := matchedPreMints + [blanks[i]];
      a := a + [i];
    }
    assert sigs[..|sigs|] == sigs;
    return Ok(MatchedChange(matchedSigs, matchedPreMints));
  }

  /** A failure on a prefix of the signatures is the failure of the whole. */
  lemma {:induction false} AssignStops(check: DleqCheck, ks: KeySet, sigs: seq<BlindSignature>, blanks: seq<PreMint>, n: nat)
    requires n <= |sigs| && Assign(check, ks, sigs[..n], blanks).Err?
    ensures Assign(check, ks, sigs, blanks) == Assign(check, ks, sigs[..n], blanks)
  {
    if n == |sigs| {
      assert sigs[..n] == sigs;
    } else {
      var front := sigs[..|sigs| - 1];
      assert front[..n] == sigs[..n];
      AssignStops(check, ks, front, blanks, n);
    }
  }
}
