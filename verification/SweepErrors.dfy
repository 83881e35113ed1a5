/** Classification of the errors a facade call can return. */
module SweepErrors {

  datatype Discriminator = DuplicatePayment | QuoteExpired | DleqVerificationFailed | InsufficientBalance

  datatype WalletError =
    | Unauthenticated
    | Cashu(message: string)
    | CashuTyped(discriminator: Discriminator, message: string)
    | Network(message: string)
    | Concurrency(message: string)
    | OtherError(message: string) // every variant whose retry policy is the catch-all `Never`

  datatype ErrorClass = Benign | Transient | Fatal

  predicate OccursAt(text: string, part: string, i: int) {
    0 <= i <= |text| - |part| && text[i..i + |part|] == part
  }

  predicate Contains(text: string, part: string) {
    exists i :: 0 <= i <= |text| && OccursAt(text, part, i)
  }

  predicate IsBenignStateMessage(message: string) {
    || Contains(message, "invalid state transition")
    || Contains(message, "quote not yet paid")
    || Contains(message, "quote not yet pending")
  }

  predicate Retryable(err: WalletError) {
    match err
    case Network(_) => true
    case Concurrency(_) => true
    case CashuTyped(discriminator, _) => discriminator == DuplicatePayment || discriminator == QuoteExpired
    case _ => false
  }

  function Classify(err: WalletError): ErrorClass {
    if err.Cashu? && IsBenignStateMessage(err.message) then Benign
    else if Retryable(err) then Transient
    else Fatal
  }

  const BENIGN_PHRASES := {"invalid state transition", "quote not yet paid", "quote not yet pending"}

  /**
   * An untyped Cashu error is benign exactly when one of the three state messages
   * stands somewhere in its text; no other error ever is.
   */
  lemma BenignIff(err: WalletError)
    ensures Classify(err) == Benign <==>
            err.Cashu? && exists phrase, before, after :: phrase in BENIGN_PHRASES && err.message == before + phrase + after
  {
    if err.Cashu? {
      forall phrase, before, after | phrase in BENIGN_PHRASES && err.message == before + phrase + after
        ensures Contains(err.message, phrase)
      {
        assert err.message[|before|..|before| + |phrase|] == phrase;
        assert OccursAt(err.message, phrase, |before|);
      }
      forall phrase | phrase in BENIGN_PHRASES && Contains(err.message, phrase)
        ensures exists before, after :: err.message == before + phrase + after
      {
        var i :| 0 <= i <= |err.message| && OccursAt(err.message, phrase, i);
        assert err.message == err.message[..i] + phrase + err.message[i + |phrase|..];
      }
    }
  }

  /** The errors worth another attempt. */
  predicate SaidTransient(err: WalletError) {
    || err.Network? || err.Concurrency?
    || (err.CashuTyped? && err.discriminator in {DuplicatePayment, QuoteExpired})
  }

  /** Transient are exactly network and concurrency errors and two of the typed codes; the rest is benign or fatal. */
  lemma TransientIff(err: WalletError)
    ensures Classify(err) == Transient <==> SaidTransient(err)
    ensures err == Unauthenticated || err.OtherError? || (err.CashuTyped? && !SaidTransient(err)) ==> Classify(err) == Fatal
  {
  }
}
