/** What a sweep reports, read off the calls it made and the answers they got. */
module SweepOutcomes {
  import opened SweepErrors
  import opened SweepReports
  import opened Sweep
  import opened SweepProperties

  // ----- A row and its answers -------------------------------------------------

  /** The call numbers of row `i`: from what the trace held when it was reached to what it held when it was done. */
  function FirstCall(env: Env, rows: seq<Row>, w: World, i: nat): nat
    requires Usable(env.cfg) && i <= |rows|
  {
    |Reaching(env, rows, w, i).calls|
  }

  function CallCount(env: Env, rows: seq<Row>, w: World, i: nat): int
    requires Usable(env.cfg) && i < |rows|
  {
    FirstCall(env, rows, w, i + 1) - FirstCall(env, rows, w, i)
  }

  function StatusOf(env: Env, rows: seq<Row>, w: World, i: nat): RowStatus
    requires Usable(env.cfg) && i < |rows|
  {
    SweepRows(env, rows, w).0[i].status
  }

  /** The answer to the last call the row made. */
  function LastAnswer(env: Env, rows: seq<Row>, w: World, i: nat): Response
    requires Usable(env.cfg) && i < |rows| && CallCount(env, rows, w, i) > 0
  {
    env.script(FirstCall(env, rows, w, i + 1) - 1)
  }

  predicate IsBenign(r: Response) {
    r.Failure? && Classify(r.error) == Benign
  }

  /** A row that makes no call is a no-op with a reason of its own. */
  lemma SilentRow(env: Env, rows: seq<Row>, w: World, i: nat)
    requires Usable(env.cfg) && i < |rows|
    ensures CallCount(env, rows, w, i) >= 0
    ensures CallCount(env, rows, w, i) == 0 <==>
            StatusOf(env, rows, w, i) == NoOp(UnexpectedState) || StatusOf(env, rows, w, i) == NoOp(NotYetExpired)
  {
    RowByRow(env, rows, w, i);
    RowCallsInTrace(env, rows, w, i);
    var before := Reaching(env, rows, w, i);
    CallsMadeExactly(env.script, |before.calls|, env.cfg.maxAttempts);
    PlanReasons(rows[i], env.clock(before.clockReads));
  }

  lemma PlanReasons(row: Row, now: int)
    ensures var plan := PlanFor(row, now); plan.Skip? ==> plan.reason == UnexpectedState || plan.reason == NotYetExpired
  {
  }

  /**
   * A row that makes calls is reported by its last answer: advanced exactly on a
   * success, already moved exactly on a benign error, and otherwise failed with that
   * error, its class and the number of calls.  Every answer before it was transient,
   * and it is transient itself only when the budget is spent.
   */
  lemma AnswerDecides(env: Env, rows: seq<Row>, w: World, i: nat)
    requires Usable(env.cfg) && i < |rows| && CallCount(env, rows, w, i) > 0
    ensures var last, status, n := LastAnswer(env, rows, w, i), StatusOf(env, rows, w, i), CallCount(env, rows, w, i);
      && (status == Advanced <==> last == Success)
      && (forall e :: status == NoOp(AlreadyMoved(e)) <==> last == Failure(e) && IsBenign(last))
      && (forall e, cls, k :: status == Failed(e, cls, k) <==>
            last == Failure(e) && !IsBenign(last) && cls == Classify(e) && k == n)
      && (IsTransient(last) ==> n == env.cfg.maxAttempts)
    ensures forall k: nat :: FirstCall(env, rows, w, i) <= k < FirstCall(env, rows, w, i + 1) - 1 ==>
              IsTransient(env.script(k))
  {
    RowByRow(env, rows, w, i);
    RowCallsInTrace(env, rows, w, i);
    var before := Reaching(env, rows, w, i);
    CallsMadeExactly(env.script, |before.calls|, env.cfg.maxAttempts);
    LastDecides(env.script(FirstCall(env, rows, w, i + 1) - 1), CallCount(env, rows, w, i));
  }

  lemma LastDecides(last: Response, n: nat)
    ensures var status := StatusFor(last, n);
      && (status == Advanced <==> last == Success)
      && (forall e :: status == NoOp(AlreadyMoved(e)) <==> last == Failure(e) && IsBenign(last))
      && (forall e, cls, k :: status == Failed(e, cls, k) <==>
            last == Failure(e) && !IsBenign(last) && cls == Classify(e) && k == n)
  {
  }

  // ----- A sweep and its successes ---------------------------------------------

  /** How many of the calls numbered from `from` up to `until` were answered with success. */
  function Successes(script: nat -> Response, from: nat, until: nat): nat
    requires from <= until
    decreases until
  {
    if from == until then 0 else Successes(script, from, until - 1) + if script(until - 1) == Success then 1 else 0
  }

  lemma {:induction false} SuccessesAdd(script: nat -> Response, a: nat, b: nat, c: nat)
    requires a <= b <= c
    ensures Successes(script, a, c) == Successes(script, a, b) + Successes(script, b, c)
    decreases c
  {
    if b < c {
      SuccessesAdd(script, a, b, c - 1);
    }
  }

  lemma {:induction false} NoSuccess(script: nat -> Response, from: nat, until: nat)
    requires from <= until && forall k: nat :: from <= k < until ==> script(k) != Success
    ensures Successes(script, from, until) == 0
    decreases until
  {
    if from != until {
      NoSuccess(script, from, until - 1);
    }
  }

  lemma RowSuccesses(env: Env, rows: seq<Row>, w: World, i: nat)
    requires Usable(env.cfg) && i < |rows|
    ensures FirstCall(env, rows, w, i) <= FirstCall(env, rows, w, i + 1)
    ensures Successes(env.script, FirstCall(env, rows, w, i), FirstCall(env, rows, w, i + 1)) ==
            if StatusOf(env, rows, w, i).Advanced? then 1 else 0
  {
    SilentRow(env, rows, w, i);
    if CallCount(env, rows, w, i) > 0 {
      AnswerDecides(env, rows, w, i);
      NoSuccess(env.script, FirstCall(env, rows, w, i), FirstCall(env, rows, w, i + 1) - 1);
    }
  }

  /** A sweep advances exactly as many rows as its calls were answered with success. */
  lemma {:induction false} AdvancedAreSuccesses(env: Env, rows: seq<Row>, w: World)
    requires Usable(env.cfg)
    ensures |w.calls| <= |SweepRows(env, rows, w).1.calls|
    ensures CountAdvanced(SweepRows(env, rows, w).0) ==
            Successes(env.script, |w.calls|, |SweepRows(env, rows, w).1.calls|)
    decreases |rows|
  {
    if rows != [] {
      var last := |rows| - 1;
      var front := rows[..last];
      AdvancedAreSuccesses(env, front, w);
      RowSuccesses(env, rows, w, last);
      assert rows[..last + 1] == rows;
      SuccessesAdd(env.script, |w.calls|, FirstCall(env, rows, w, last), FirstCall(env, rows, w, last + 1));
      var outcomes := SweepRows(env, rows, w).0;
      assert outcomes[..last] == SweepRows(env, front, w).0;
    }
  }

  // ----- Kinds, reasons, clock and waits ---------------------------------------

  /** The rows each kind of outcome is reported for. */
  predicate KindMeans(kind: RowKind, row: Row, now: int) {
    match kind
    case SendSwapDraft => row.SendSwap? && row.sendState == SendDraft
    case SendSwapPending => row.SendSwap? && row.sendState != SendDraft
    case ReceiveSwapPending => row.ReceiveSwap?
    case MintQuoteUnpaid => row.MintQuote? && row.mintState == MintUnpaid && now <= row.expiresAt
    case MintQuoteExpire => row.MintQuote? && row.mintState == MintUnpaid && row.expiresAt < now
    case MintQuotePaid => row.MintQuote? && row.mintState != MintUnpaid
    case MeltQuoteUnpaidExpire => row.MeltQuote? && row.meltState == MeltUnpaid
    case MeltQuotePending => row.MeltQuote? && row.meltState != MeltUnpaid
  }

  /** A row in a state a sweep has nothing to do for. */
  predicate Resting(row: Row) {
    || (row.SendSwap? && row.sendState !in {SendDraft, SendPending})
    || (row.MintQuote? && row.mintState !in {MintUnpaid, MintPaid})
    || (row.MeltQuote? && row.meltState !in {MeltUnpaid, MeltPending})
  }

  predicate UnpaidQuote(row: Row) {
    (row.MintQuote? && row.mintState == MintUnpaid) || (row.MeltQuote? && row.meltState == MeltUnpaid)
  }

  lemma PlanMeans(row: Row, now: int, kind: RowKind)
    ensures PlanFor(row, now).kind == kind <==> KindMeans(kind, row, now)
    ensures PlanFor(row, now) == Skip(PlanFor(row, now).kind, UnexpectedState) <==> Resting(row)
    ensures PlanFor(row, now) == Skip(PlanFor(row, now).kind, NotYetExpired) <==>
            row.MeltQuote? && row.meltState == MeltUnpaid && now <= row.expiresAt
    ensures ReadsClock(row) <==> UnpaidQuote(row)
  {
  }

  /**
   * The kind and the reason of an outcome say what state the row was listed in and
   * which side of its expiry it was on, and exactly unpaid quotes read the clock.
   */
  lemma KindAndReason(env: Env, rows: seq<Row>, w: World, i: nat, kind: RowKind)
    requires Usable(env.cfg) && i < |rows|
    ensures var row, now := rows[i], env.clock(Reaching(env, rows, w, i).clockReads);
      && (SweepRows(env, rows, w).0[i].kind == kind <==> KindMeans(kind, row, now))
      && (StatusOf(env, rows, w, i) == NoOp(UnexpectedState) <==> Resting(row))
      && (StatusOf(env, rows, w, i) == NoOp(NotYetExpired) <==>
            row.MeltQuote? && row.meltState == MeltUnpaid && now <= row.expiresAt)
      && Reaching(env, rows, w, i + 1).clockReads ==
         Reaching(env, rows, w, i).clockReads + if UnpaidQuote(row) then 1 else 0
  {
    RowByRow(env, rows, w, i);
    var before := Reaching(env, rows, w, i);
    PlanMeans(rows[i], env.clock(before.clockReads), kind);
  }

  /** A row waits between its calls and at no other time, each time for the base doubled once per call so far. */
  lemma WaitsBetweenCalls(env: Env, rows: seq<Row>, w: World, i: nat, k: nat)
    requires Usable(env.cfg) && i < |rows|
    ensures var before, after := Reaching(env, rows, w, i).slept, Reaching(env, rows, w, i + 1).slept;
      var waits := if CallCount(env, rows, w, i) > 0 then CallCount(env, rows, w, i) - 1 else 0;
      && before <= after && |after| == |before| + waits
      && (k < waits ==> after[|before| + k] == Capped(env.cfg.baseBackoff * Pow2(k)))
  {
    RowByRow(env, rows, w, i);
    RowCallsInTrace(env, rows, w, i);
    var before := Reaching(env, rows, w, i);
    CallsMadeExactly(env.script, |before.calls|, env.cfg.maxAttempts);
    var n := CallsMade(env.script, |before.calls|, env.cfg.maxAttempts);
    BackoffCount(env.cfg.baseBackoff, n - 1);
    if k < n - 1 {
      BackoffAt(env.cfg.baseBackoff, n - 1, k);
    }
  }

  lemma {:induction false} BackoffCount(first: nat, n: nat)
    ensures |Backoffs(first, n)| == n
    decreases n
  {
    if n > 0 {
      BackoffCount(Doubled(first), n - 1);
    }
  }
}
