/** What a sweep guarantees, whatever the facade and the clock answer. */
module SweepProperties {
  import opened SweepErrors
  import opened SweepReports
  import opened Sweep

  /** The world when row `i` of a sweep is reached. */
  function Reaching(env: Env, rows: seq<Row>, w: World, i: nat): World
    requires Usable(env.cfg) && i <= |rows|
  {
    SweepRows(env, rows[..i], w).1
  }

  lemma {:induction false} RowByRow(env: Env, rows: seq<Row>, w: World, i: nat)
    requires Usable(env.cfg) && i < |rows|
    ensures RowResult(env, rows[i], Reaching(env, rows, w, i)) ==
            (SweepRows(env, rows, w).0[i], Reaching(env, rows, w, i + 1))
  {
    if i == |rows| - 1 {
      assert rows[..i + 1] == rows;
    } else {
      var front := rows[..|rows| - 1];
      RowByRow(env, front, w, i);
      assert front[..i] == rows[..i] && front[..i + 1] == rows[..i + 1];
    }
  }

  /** One outcome per row, in snapshot order; the three counts add up to the rows seen. */
  lemma EveryRowReported(env: Env, snapshot: Snapshot, w: World)
    requires Usable(env.cfg)
    ensures var rows, outcomes := snapshot.Rows(), SweepRows(env, snapshot.Rows(), w).0;
      && |outcomes| == |rows|
      && CountAdvanced(outcomes) + CountNoOp(outcomes) + CountFailed(outcomes) == |rows|
      && forall i :: 0 <= i < |rows| ==> outcomes[i].rowId == rows[i].id
  {
    var rows := snapshot.Rows();
    CountsPartition(SweepRows(env, rows, w).0);
    forall i | 0 <= i < |rows|
      ensures SweepRows(env, rows, w).0[i].rowId == rows[i].id
    {
      RowByRow(env, rows, w, i);
    }
  }

  /** The answers to `n` calls, the first being call number `from`. */
  function Answers(script: nat -> Response, from: nat, n: nat): seq<Response>
    decreases n
  {
    if n == 0 then [] else [script(from)] + Answers(script, from + 1, n - 1)
  }

  /** A retry loop that gets the same answers to the calls it makes does the same. */
  lemma {:induction false} SameAnswers(script: nat -> Response, from: nat, script': nat -> Response, from': nat, budget: nat)
    requires budget >= 1
    requires var n := CallsMade(script, from, budget); Answers(script, from, n) == Answers(script', from', n)
    ensures var n := CallsMade(script, from, budget);
      && n == CallsMade(script', from', budget)
      && n >= 1 && script(from + n - 1) == script'(from' + n - 1)
    decreases budget
  {
    var n := CallsMade(script, from, budget);
    assert script(from) == Answers(script, from, n)[0] == Answers(script', from', n)[0] == script'(from');
    if budget > 1 && IsTransient(script(from)) {
      assert Answers(script, from + 1, n - 1) == Answers(script, from, n)[1..];
      assert Answers(script', from' + 1, n - 1) == Answers(script', from', n)[1..];
      SameAnswers(script, from + 1, script', from' + 1, budget - 1);
    }
  }

  /** How many calls a row makes. */
  function RowCalls(env: Env, row: Row, w: World): nat
    requires Usable(env.cfg)
  {
    if PlanFor(row, env.clock(w.clockReads)).Skip? then 0 else CallsMade(env.script, |w.calls|, env.cfg.maxAttempts)
  }

  lemma RetryDependsOn(env: Env, w: World, env': Env, w': World)
    requires Usable(env.cfg) && env'.cfg == env.cfg
    requires var n := CallsMade(env.script, |w.calls|, env.cfg.maxAttempts);
      Answers(env.script, |w.calls|, n) == Answers(env'.script, |w'.calls|, n)
    ensures RetryStatus(env, w) == RetryStatus(env', w')
    ensures CallsMade(env.script, |w.calls|, env.cfg.maxAttempts) ==
            CallsMade(env'.script, |w'.calls|, env.cfg.maxAttempts)
  {
    SameAnswers(env.script, |w.calls|, env'.script, |w'.calls|, env.cfg.maxAttempts);
  }

  lemma RowDependsOn(env: Env, w: World, env': Env, w': World, row: Row)
    requires Usable(env.cfg) && env'.cfg == env.cfg
    requires ReadsClock(row) ==> env.clock(w.clockReads) == env'.clock(w'.clockReads)
    requires var n := RowCalls(env, row, w); Answers(env.script, |w.calls|, n) == Answers(env'.script, |w'.calls|, n)
    ensures RowResult(env, row, w).0 == RowResult(env', row, w').0
    ensures RowCalls(env, row, w) == RowCalls(env', row, w')
  {
    PlanReadsClock(row, env.clock(w.clockReads), env'.clock(w'.clockReads));
    if PlanFor(row, env.clock(w.clockReads)).Act? {
      RetryDependsOn(env, Ticked(row, w), env', Ticked(row, w'));
    }
  }

  lemma PlanReadsClock(row: Row, now: int, now': int)
    requires ReadsClock(row) ==> now == now'
    ensures PlanFor(row, now) == PlanFor(row, now')
  {
  }

  /**
   * Row isolation: a row's outcome is decided by its own state, its own clock
   * reading and the answers to the calls it makes.  The rest of the snapshot, how its
   * rows fared and what was answered to them make no difference.
   */
  lemma RowIsolation(env: Env, rows: seq<Row>, w: World, i: nat, env': Env, rows': seq<Row>, w': World, j: nat)
    requires Usable(env.cfg) && env'.cfg == env.cfg
    requires i < |rows| && j < |rows'| && rows[i] == rows'[j]
    requires var before, before' := Reaching(env, rows, w, i), Reaching(env', rows', w', j);
      var n := RowCalls(env, rows[i], before);
      && (ReadsClock(rows[i]) ==> env.clock(before.clockReads) == env'.clock(before'.clockReads))
      && Answers(env.script, |before.calls|, n) == Answers(env'.script, |before'.calls|, n)
    ensures SweepRows(env, rows, w).0[i] == SweepRows(env', rows', w').0[j]
    ensures var before, before' := Reaching(env, rows, w, i), Reaching(env', rows', w', j);
      RowCalls(env, rows[i], before) == RowCalls(env', rows'[j], before')
  {
    RowByRow(env, rows, w, i);
    RowByRow(env', rows', w', j);
    RowDependsOn(env, Reaching(env, rows, w, i), env', Reaching(env', rows', w', j), rows[i]);
  }

  lemma RepeatSize(call: Call, n: nat)
    ensures |Repeat(call, n)| == n
  {
    RepeatHas(call, n);
  }

  /** The calls a row makes are the ones it adds to the trace. */
  lemma RowCallsInTrace(env: Env, rows: seq<Row>, w: World, i: nat)
    requires Usable(env.cfg) && i < |rows|
    ensures |Reaching(env, rows, w, i + 1).calls| ==
            |Reaching(env, rows, w, i).calls| + RowCalls(env, rows[i], Reaching(env, rows, w, i))
  {
    RowByRow(env, rows, w, i);
    var before := Reaching(env, rows, w, i);
    var plan := PlanFor(rows[i], env.clock(before.clockReads));
    if plan.Act? {
      RepeatSize(Call(plan.facadeMethod, rows[i].id), RowCalls(env, rows[i], before));
    }
  }

  // ----- Calls -----------------------------------------------------------------

  lemma {:induction false} RepeatHas(call: Call, n: nat)
    ensures |Repeat(call, n)| == n && forall k :: 0 <= k < n ==> Repeat(call, n)[k] == call
  {
    if n > 0 {
      RepeatHas(call, n - 1);
    }
  }

  /** The calls a row adds to the trace: at most `maxAttempts` repeats of the one its state selects. */
  lemma CallsOfRow(env: Env, rows: seq<Row>, w: World, i: nat)
    requires Usable(env.cfg) && i < |rows|
    ensures var before, after := Reaching(env, rows, w, i), Reaching(env, rows, w, i + 1);
      var plan := PlanFor(rows[i], env.clock(before.clockReads));
      && before.calls <= after.calls
      && (plan.Skip? ==> after.calls == before.calls)
      && (plan.Act? ==> 1 <= |after.calls| - |before.calls| <= env.cfg.maxAttempts)
      && forall k :: |before.calls| <= k < |after.calls| ==>
           plan.Act? && after.calls[k] == Call(plan.facadeMethod, rows[i].id)
  {
    RowByRow(env, rows, w, i);
    var before := Reaching(env, rows, w, i);
    var plan := PlanFor(rows[i], env.clock(before.clockReads));
    if plan.Act? {
      CallsMadeExactly(env.script, |before.calls|, env.cfg.maxAttempts);
      RepeatHas(Call(plan.facadeMethod, rows[i].id), CallsMade(env.script, |before.calls|, env.cfg.maxAttempts));
    }
  }

  // ----- Any number of sweeps --------------------------------------------------

  const START := World([], 0, [])

  /** The world when row `i` of sweep `s` is reached. */
  function At(env: Env, snapshots: seq<Snapshot>, s: nat, i: nat): World
    requires Usable(env.cfg) && s < |snapshots| && i <= |snapshots[s].Rows()|
  {
    Reaching(env, snapshots[s].Rows(), SweepAll(env, snapshots[..s], START), i)
  }

  /** Call number `k` was made by row `i` of sweep `s`. */
  predicate MadeBy(env: Env, snapshots: seq<Snapshot>, k: nat, s: nat, i: nat)
    requires Usable(env.cfg)
  {
    && s < |snapshots| && i < |snapshots[s].Rows()|
    && |At(env, snapshots, s, i).calls| <= k < |At(env, snapshots, s, i + 1).calls|
  }

  /** The call in a sweep's trace at `k` belongs to one of its rows. */
  lemma {:induction false} MakerInSweep(env: Env, rows: seq<Row>, w: World, k: nat) returns (i: nat)
    requires Usable(env.cfg) && |w.calls| <= k < |SweepRows(env, rows, w).1.calls|
    ensures i < |rows| && |Reaching(env, rows, w, i).calls| <= k < |Reaching(env, rows, w, i + 1).calls|
    decreases |rows|
  {
    var last := |rows| - 1;
    assert rows[..last + 1] == rows;
    if |Reaching(env, rows, w, last).calls| <= k {
      i := last;
    } else {
      i := MakerInSweep(env, rows[..last], w, k);
      assert rows[..last][..i] == rows[..i] && rows[..last][..i + 1] == rows[..i + 1];
    }
  }

  /** Every call was made by some row of some sweep. */
  lemma {:induction false} MakerExists(env: Env, snapshots: seq<Snapshot>, k: nat) returns (s: nat, i: nat)
    requires Usable(env.cfg) && k < |SweepAll(env, snapshots, START).calls|
    ensures MadeBy(env, snapshots, k, s, i)
    decreases |snapshots|
  {
    var last := |snapshots| - 1;
    var before := SweepAll(env, snapshots[..last], START);
    if k < |before.calls| {
      s, i := MakerExists(env, snapshots[..last], k);
      assert snapshots[..last][..s] == snapshots[..s];
    } else {
      s := last;
      i := MakerInSweep(env, snapshots[last].Rows(), before, k);
    }
  }

  /** Traces only grow: what a row of a sweep has seen is in the final trace. */
  lemma {:induction false} TraceGrows(env: Env, rows: seq<Row>, w: World, i: nat)
    requires Usable(env.cfg) && i <= |rows|
    ensures Reaching(env, rows, w, i).calls <= SweepRows(env, rows, w).1.calls
    decreases |rows| - i
  {
    if i < |rows| {
      CallsOfRow(env, rows, w, i);
      TraceGrows(env, rows, w, i + 1);
    } else {
      assert rows[..i] == rows;
    }
  }

  lemma {:induction false} SweepsGrow(env: Env, snapshots: seq<Snapshot>, s: nat)
    requires Usable(env.cfg) && s <= |snapshots|
    ensures SweepAll(env, snapshots[..s], START).calls <= SweepAll(env, snapshots, START).calls
    decreases |snapshots|
  {
    if s == |snapshots| {
      assert snapshots[..s] == snapshots;
    } else {
      var front := snapshots[..|snapshots| - 1];
      assert front[..s] == snapshots[..s];
      SweepsGrow(env, front, s);
      var rows, before := snapshots[|snapshots| - 1].Rows(), SweepAll(env, front, START);
      TraceGrows(env, rows, before, 0);
      assert Reaching(env, rows, before, 0) == before;
    }
  }

  lemma CallAt(env: Env, snapshots: seq<Snapshot>, k: nat, s: nat, i: nat)
    requires Usable(env.cfg) && MadeBy(env, snapshots, k, s, i)
    ensures k < |SweepAll(env, snapshots, START).calls|
    ensures SweepAll(env, snapshots, START).calls[k] == At(env, snapshots, s, i + 1).calls[k]
  {
    assert snapshots[..s + 1][..s] == snapshots[..s];
    TraceGrows(env, snapshots[s].Rows(), SweepAll(env, snapshots[..s], START), i + 1);
    SweepsGrow(env, snapshots, s + 1);
  }

  // ----- What the calls are for ------------------------------------------------

  /** The rows each facade method is meant for; expiry is strict, and nothing is meant for InitiateMelt. */
  predicate MeantFor(m: FacadeMethod, row: Row, now: int) {
    match m
    case ResumeSendSwapDraft => row.SendSwap? && row.sendState == SendDraft
    case CheckSendTokenClaimed => row.SendSwap? && row.sendState == SendPending
    case ResumeReceiveSwap => row.ReceiveSwap?
    case ExpireMintQuote => row.MintQuote? && row.mintState == MintUnpaid && row.expiresAt < now
    case PollReceiveLightning => row.MintQuote? && row.mintState == MintUnpaid && now <= row.expiresAt
    case CompleteReceiveLightning => row.MintQuote? && row.mintState == MintPaid
    case ExpireMeltQuote => row.MeltQuote? && row.meltState == MeltUnpaid && row.expiresAt < now
    case PollSendLightning => row.MeltQuote? && row.meltState == MeltPending
    case InitiateMelt => false
  }

  lemma PlanFits(row: Row, now: int)
    ensures PlanFor(row, now).Act? ==> MeantFor(PlanFor(row, now).facadeMethod, row, now)
    ensures PlanFor(row, now).Skip? ==> forall m :: !MeantFor(m, row, now)
  {
  }

  /**
   * Over any number of sweeps, a call made by a row of a sweep names that row, and
   * its method is meant for the state that sweep's snapshot listed the row in and for
   * the row's own reading of the clock.
   */
  lemma CallsFitState(env: Env, snapshots: seq<Snapshot>, k: nat, s: nat, i: nat)
    requires Usable(env.cfg) && MadeBy(env, snapshots, k, s, i)
    ensures k < |SweepAll(env, snapshots, START).calls|
    ensures var call, row, w := SweepAll(env, snapshots, START).calls[k], snapshots[s].Rows()[i], At(env, snapshots, s, i);
      && call.rowId == row.id && MeantFor(call.facadeMethod, row, env.clock(w.clockReads))
      && (ReadsClock(row) ==> At(env, snapshots, s, i + 1).clockReads == w.clockReads + 1)
  {
    var rows, before := snapshots[s].Rows(), SweepAll(env, snapshots[..s], START);
    CallAt(env, snapshots, k, s, i);
    CallsOfRow(env, rows, before, i);
    RowByRow(env, rows, before, i);
    PlanFits(rows[i], env.clock(Reaching(env, rows, before, i).clockReads));
  }

  lemma MeltRows(snapshot: Snapshot, row: Row)
    requires row in snapshot.Rows() && row.MeltQuote?
    ensures row in snapshot.meltQuotes
  {
  }

  /**
   * No re-payment: over any number of sweeps no call ever initiates a melt.  A melt
   * quote is expired only by a sweep whose own snapshot listed it unpaid and whose
   * reading of the clock for it was past its expiry, and polled only by a sweep whose
   * snapshot listed its payment as under way.
   */
  lemma NoRepayment(env: Env, snapshots: seq<Snapshot>, k: nat) returns (s: nat, i: nat)
    requires Usable(env.cfg) && k < |SweepAll(env, snapshots, START).calls|
    ensures MadeBy(env, snapshots, k, s, i)
    ensures var call, row := SweepAll(env, snapshots, START).calls[k], snapshots[s].Rows()[i];
      && call.rowId == row.id && call.facadeMethod != InitiateMelt
      && (call.facadeMethod == ExpireMeltQuote ==>
            row in snapshots[s].meltQuotes && row.meltState == MeltUnpaid
            && row.expiresAt < env.clock(At(env, snapshots, s, i).clockReads))
      && (call.facadeMethod == PollSendLightning ==> row in snapshots[s].meltQuotes && row.meltState == MeltPending)
  {
    s, i := MakerExists(env, snapshots, k);
    CallsFitState(env, snapshots, k, s, i);
    var row := snapshots[s].Rows()[i];
    if row.MeltQuote? {
      MeltRows(snapshots[s], row);
    }
  }

  // ----- Cost ------------------------------------------------------------------

  function Sum(ds: seq<nat>): nat {
    if ds == [] then 0 else ds[0] + Sum(ds[1..])
  }

  lemma {:induction false} SumPlus(a: seq<nat>, b: seq<nat>)
    ensures Sum(a + b) == Sum(a) + Sum(b)
  {
    if a == [] {
      assert a + b == b;
    } else {
      SumPlus(a[1..], b);
      assert (a + b)[1..] == a[1..] + b;
    }
  }

  function Pow2(n: nat): nat {
    if n == 0 then 1 else 2 * Pow2(n - 1)
  }

  /** Each wait is the base doubled once per attempt so far, up to the longest `Duration`. */
  lemma {:induction false} BackoffAt(first: nat, n: nat, k: nat)
    requires k < n && first <= MAX_DURATION
    ensures |Backoffs(first, n)| == n
    ensures Backoffs(first, n)[k] == Capped(first * Pow2(k))
    decreases n
  {
    if n > 1 {
      BackoffAt(Doubled(first), n - 1, if k == 0 then 0 else k - 1);
      if k > 0 {
        Pow2Positive(k - 1);
        DoubledOnce(first, Pow2(k - 1));
      }
    }
  }

  function Capped(d: nat): nat {
    if d <= MAX_DURATION then d else MAX_DURATION
  }

  lemma DoubledOnce(first: nat, p: nat)
    requires p >= 1
    ensures Capped(Doubled(first) * p) == Capped(first * (2 * p))
  {
    assert first * (2 * p) == 2 * first * p;
    if 2 * first > MAX_DURATION {
      AtLeast(2 * first, p);
      AtLeast(MAX_DURATION, p);
    }
  }

  lemma AtLeast(x: nat, p: nat)
    requires p >= 1
    ensures x * p >= x
  {
  }

  lemma {:induction false} Pow2Positive(n: nat)
    ensures Pow2(n) >= 1
  {
    if n > 0 {
      Pow2Positive(n - 1);
    }
  }

  lemma {:induction false} Pow2Grows(m: nat, n: nat)
    requires m <= n
    ensures Pow2(m) <= Pow2(n)
  {
    if m < n {
      Pow2Grows(m, n - 1);
      Pow2Positive(n - 1);
    }
  }

  lemma {:induction false} BackoffSum(first: nat, n: nat)
    ensures Sum(Backoffs(first, n)) <= first * (Pow2(n) - 1)
    decreases n
  {
    if n > 0 {
      var d := Doubled(first);
      BackoffSum(d, n - 1);
      Pow2Positive(n - 1);
      assert Backoffs(first, n)[1..] == Backoffs(d, n - 1);
      OneMoreWait(first, d, Pow2(n - 1));
    }
  }

  lemma OneMoreWait(first: nat, next: nat, p: nat)
    requires next <= 2 * first && p >= 1
    ensures first + next * (p - 1) <= first * (2 * p - 1)
  {
    Scaled(p - 1, next, 2 * first);
    assert (p - 1) * (2 * first) == 2 * (first * p) - 2 * first;
    assert first * (2 * p - 1) == 2 * (first * p) - first;
  }

  lemma Scaled(base: nat, a: int, b: int)
    requires a <= b
    ensures base * a <= base * b
  {
  }

  lemma BackoffOfCalls(base: nat, n: nat, budget: nat)
    requires 1 <= n <= budget
    ensures Sum(Backoffs(base, n - 1)) <= base * (Pow2(budget - 1) - 1)
  {
    BackoffSum(base, n - 1);
    Pow2Grows(n - 1, budget - 1);
    Scaled(base, Pow2(n - 1) - 1, Pow2(budget - 1) - 1);
  }

  lemma BackoffOfRow(env: Env, row: Row, w: World, worst: int)
    requires Usable(env.cfg) && worst == env.cfg.baseBackoff * (Pow2(env.cfg.maxAttempts - 1) - 1)
    ensures Sum(RowResult(env, row, w).1.slept) <= Sum(w.slept) + worst
  {
    CallsMadeExactly(env.script, |w.calls|, env.cfg.maxAttempts);
    var n := CallsMade(env.script, |w.calls|, env.cfg.maxAttempts);
    BackoffOfCalls(env.cfg.baseBackoff, n, env.cfg.maxAttempts);
    SumPlus(w.slept, Backoffs(env.cfg.baseBackoff, n - 1));
    assert worst >= 0;
  }

  lemma {:induction false} WaitUpTo(env: Env, rows: seq<Row>, w: World, worst: int, i: nat)
    requires Usable(env.cfg) && i <= |rows|
    requires forall k :: 0 <= k < |rows| ==>
      Sum(Reaching(env, rows, w, k + 1).slept) <= Sum(Reaching(env, rows, w, k).slept) + worst
    ensures Sum(Reaching(env, rows, w, i).slept) <= Sum(w.slept) + i * worst
  {
    if i > 0 {
      WaitUpTo(env, rows, w, worst, i - 1);
      assert Sum(Reaching(env, rows, w, i - 1 + 1).slept) <= Sum(Reaching(env, rows, w, i - 1).slept) + worst;
      assert i * worst == (i - 1) * worst + worst;
    }
  }

  /** Sweep cost: the waiting of a whole sweep is bounded by rows times one row's worst case. */
  lemma BackoffBound(env: Env, rows: seq<Row>, w: World)
    requires Usable(env.cfg)
    ensures Sum(SweepRows(env, rows, w).1.slept) <=
            Sum(w.slept) + |rows| * (env.cfg.baseBackoff * (Pow2(env.cfg.maxAttempts - 1) - 1))
  {
    var worst := env.cfg.baseBackoff * (Pow2(env.cfg.maxAttempts - 1) - 1);
    forall k | 0 <= k < |rows|
      ensures Sum(Reaching(env, rows, w, k + 1).slept) <= Sum(Reaching(env, rows, w, k).slept) + worst
    {
      RowByRow(env, rows, w, k);
      BackoffOfRow(env, rows[k], Reaching(env, rows, w, k), worst);
    }
    WaitUpTo(env, rows, w, worst, |rows|);
    assert rows[..|rows|] == rows;
  }
}
