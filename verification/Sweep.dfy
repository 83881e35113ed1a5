/**
 * One resumption sweep over the user's pending rows.
 *
 * The facade and the clock are scripts: `script(k)` answers the k-th facade call
 * ever made and `clock(k)` the k-th reading of the clock.  Every statement is for
 * all scripts, so the services behind the facade may answer anything.
 */
module Sweep {
  import opened Wrappers
  import opened SweepErrors
  import opened SweepReports

  // The largest `Duration`, in nanoseconds.
  const MAX_DURATION: nat := 0xFFFF_FFFF_FFFF_FFFF * 1_000_000_000 + 999_999_999

  datatype RetryConfig = RetryConfig(maxAttempts: nat, baseBackoff: nat)

  predicate Usable(cfg: RetryConfig) {
    1 <= cfg.maxAttempts && cfg.baseBackoff <= MAX_DURATION
  }

  // The facade methods a sweep could reach for; InitiateMelt is the one that pays.
  datatype FacadeMethod =
    | ResumeSendSwapDraft | CheckSendTokenClaimed | ResumeReceiveSwap
    | ExpireMintQuote | PollReceiveLightning | CompleteReceiveLightning
    | ExpireMeltQuote | PollSendLightning | InitiateMelt

  datatype Call = Call(facadeMethod: FacadeMethod, rowId: nat)

  datatype Response = Success | Failure(error: WalletError)

  datatype SendSwapState = SendDraft | SendPending | SendCompleted | SendFailed | SendReversed
  datatype MintQuoteState = MintUnpaid | MintPaid | MintCompleted | MintExpired | MintFailed
  datatype MeltQuoteState = MeltUnpaid | MeltPending | MeltPaid | MeltExpired | MeltFailed

  datatype Row =
    | SendSwap(id: nat, sendState: SendSwapState)
    | ReceiveSwap(id: nat)
    | MintQuote(id: nat, mintState: MintQuoteState, expiresAt: int)
    | MeltQuote(id: nat, meltState: MeltQuoteState, expiresAt: int)

  type SendSwapRow = r: Row | r.SendSwap? witness SendSwap(0, SendDraft)
  type ReceiveSwapRow = r: Row | r.ReceiveSwap? witness ReceiveSwap(0)
  type MintQuoteRow = r: Row | r.MintQuote? witness MintQuote(0, MintUnpaid, 0)
  type MeltQuoteRow = r: Row | r.MeltQuote? witness MeltQuote(0, MeltUnpaid, 0)

  datatype Snapshot = Snapshot(
    sendSwaps: seq<SendSwapRow>,
    receiveSwaps: seq<ReceiveSwapRow>,
    mintQuotes: seq<MintQuoteRow>,
    meltQuotes: seq<MeltQuoteRow>)
  {
    function Rows(): seq<Row> {
      sendSwaps + receiveSwaps + mintQuotes + meltQuotes
    }
  }

  // ----- Specification ---------------------------------------------------------

  datatype Plan = Act(kind: RowKind, facadeMethod: FacadeMethod) | Skip(kind: RowKind, reason: NoOpReason)

  /** Only an unpaid quote's expiry is compared with the clock. */
  predicate ReadsClock(row: Row) {
    (row.MintQuote? && row.mintState == MintUnpaid) || (row.MeltQuote? && row.meltState == MeltUnpaid)
  }

  /** The row-to-method table. */
  function PlanFor(row: Row, now: int): Plan {
    match row
    case SendSwap(_, SendDraft) => Act(SendSwapDraft, ResumeSendSwapDraft)
    case SendSwap(_, SendPending) => Act(SendSwapPending, CheckSendTokenClaimed)
    case SendSwap(_, _) => Skip(SendSwapPending, UnexpectedState)
    case ReceiveSwap(_) => Act(ReceiveSwapPending, ResumeReceiveSwap)
    case MintQuote(_, MintUnpaid, expiresAt) =>
      if expiresAt < now then Act(MintQuoteExpire, ExpireMintQuote) else Act(MintQuoteUnpaid, PollReceiveLightning)
    case MintQuote(_, MintPaid, _) => Act(MintQuotePaid, CompleteReceiveLightning)
    case MintQuote(_, _, _) => Skip(MintQuotePaid, UnexpectedState)
    case MeltQuote(_, MeltUnpaid, expiresAt) =>
      if expiresAt < now then Act(MeltQuoteUnpaidExpire, ExpireMeltQuote)
      else Skip(MeltQuoteUnpaidExpire, NotYetExpired)
    case MeltQuote(_, MeltPending, _) => Act(MeltQuotePending, PollSendLightning)
    case MeltQuote(_, _, _) => Skip(MeltQuotePending, UnexpectedState)
  }

  predicate IsTransient(r: Response) {
    r.Failure? && Classify(r.error) == Transient
  }

  /** How many calls a retry loop with `budget` attempts makes, its first being call number `from`. */
  function CallsMade(script: nat -> Response, from: nat, budget: nat): nat
    requires budget >= 1
    decreases budget
  {
    if budget == 1 || !IsTransient(script(from)) then 1 else 1 + CallsMade(script, from + 1, budget - 1)
  }

  /** The loop stops at the first answer that is not transient, or when its budget is spent. */
  lemma {:induction false} CallsMadeExactly(script: nat -> Response, from: nat, budget: nat)
    requires budget >= 1
    ensures var n := CallsMade(script, from, budget);
      && 1 <= n <= budget
      && (forall k: nat :: from <= k < from + n - 1 ==> IsTransient(script(k)))
      && (n == budget || !IsTransient(script(from + n - 1)))
    decreases budget
  {
    if budget > 1 && IsTransient(script(from)) {
      CallsMadeExactly(script, from + 1, budget - 1);
    }
  }

  function StatusFor(last: Response, attempts: nat): RowStatus {
    match last
    case Success => Advanced
    case Failure(e) => if Classify(e) == Benign then NoOp(AlreadyMoved(e)) else Failed(e, Classify(e), attempts)
  }

  function Doubled(backoff: nat): nat {
    if 2 * backoff <= MAX_DURATION then 2 * backoff else MAX_DURATION
  }

  /** The sleeps between `n + 1` attempts. */
  function Backoffs(first: nat, n: nat): seq<nat>
    decreases n
  {
    if n == 0 then [] else [first] + Backoffs(Doubled(first), n - 1)
  }

  function Repeat(call: Call, n: nat): seq<Call> {
    if n == 0 then [] else Repeat(call, n - 1) + [call]
  }

  // What the outside world has seen so far.
  datatype World = World(calls: seq<Call>, clockReads: nat, slept: seq<nat>)

  datatype Env = Env(script: nat -> Response, clock: nat -> int, cfg: RetryConfig)

  function AfterRetry(env: Env, call: Call, w: World): World
    requires Usable(env.cfg)
  {
    var n := CallsMade(env.script, |w.calls|, env.cfg.maxAttempts);
    w.(calls := w.calls + Repeat(call, n), slept := w.slept + Backoffs(env.cfg.baseBackoff, n - 1))
  }

  function RetryStatus(env: Env, w: World): RowStatus
    requires Usable(env.cfg)
  {
    var n := CallsMade(env.script, |w.calls|, env.cfg.maxAttempts);
    StatusFor(env.script(|w.calls| + n - 1), n)
  }

  function Ticked(row: Row, w: World): World {
    if ReadsClock(row) then w.(clockReads := w.clockReads + 1) else w
  }

  function RowResult(env: Env, row: Row, w: World): (RowOutcome, World)
    requires Usable(env.cfg)
  {
    var w' := Ticked(row, w);
    match PlanFor(row, env.clock(w.clockReads))
    case Act(kind, m) => (RowOutcome(row.id, kind, RetryStatus(env, w')), AfterRetry(env, Call(m, row.id), w'))
    case Skip(kind, reason) => (RowOutcome(row.id, kind, NoOp(reason)), w')
  }

  /** A sweep over `rows`, starting in world `w`. */
  function SweepRows(env: Env, rows: seq<Row>, w: World): (r: (seq<RowOutcome>, World))
    requires Usable(env.cfg)
    ensures |r.0| == |rows|
  {
    if rows == [] then ([], w)
    else
      var (outcomes, before) := SweepRows(env, rows[..|rows| - 1], w);
      var (outcome, after) := RowResult(env, rows[|rows| - 1], before);
      (outcomes + [outcome], after)
  }

  /** Any number of sweeps. */
  function SweepAll(env: Env, snapshots: seq<Snapshot>, w: World): World
    requires Usable(env.cfg)
  {
    if snapshots == [] then w
    else SweepRows(env, snapshots[|snapshots| - 1].Rows(), SweepAll(env, snapshots[..|snapshots| - 1], w)).1
  }

  // ----- The code --------------------------------------------------------------

  class Facade {
    const env: Env
    var world: World

    constructor (env: Env)
      ensures this.env == env && world == World([], 0, [])
    {
      this.env := env;
      world := World([], 0, []);
    }

    method Invoke(call: Call) returns (r: Response)
      modifies this
      ensures r == env.script(|old(world).calls|)
      ensures world == old(world).(calls := old(world).calls + [call])
    {
      r := env.script(|world.calls|);
      world := world.(calls := world.calls + [call]);
    }

    method Now() returns (now: int)
      modifies this
      ensures now == env.clock(old(world).clockReads)
      ensures world == old(world).(clockReads := old(world).clockReads + 1)
    {
      now := env.clock(world.clockReads);
      world := world.(clockReads := world.clockReads + 1);
    }

    method SleepFor(d: nat)
      modifies this
      ensures world == old(world).(slept := old(world).slept + [d])
    {
      world := world.(slept := world.slept + [d]);
    }
  }

  /** Where the loop of `Retry` stands before its `attempt`-th call. */
  predicate Retrying(env: Env, call: Call, w: World, now: World, attempt: nat, backoff: nat)
    requires Usable(env.cfg) && attempt >= 1
  {
    var budget := env.cfg.maxAttempts;
    && now.calls == w.calls + Repeat(call, attempt - 1)
    && |now.calls| == |w.calls| + attempt - 1
    && now.clockReads == w.clockReads
    && (if attempt <= budget then
          var left := CallsMade(env.script, |now.calls|, budget - attempt + 1);
          && CallsMade(env.script, |w.calls|, budget) == attempt - 1 + left
          && w.slept + Backoffs(env.cfg.baseBackoff, attempt - 1 + left - 1) == now.slept + Backoffs(backoff, left - 1)
        else
          && CallsMade(env.script, |w.calls|, budget) == budget == attempt - 1
          && now.slept == w.slept + Backoffs(env.cfg.baseBackoff, budget - 1))
  }

  lemma AttemptStops(env: Env, call: Call, w: World, now: World, attempt: nat, backoff: nat)
    requires Usable(env.cfg) && 1 <= attempt <= env.cfg.maxAttempts
    requires Retrying(env, call, w, now, attempt, backoff) && !IsTransient(env.script(|now.calls|))
    ensures now.(calls := now.calls + [call]) == AfterRetry(env, call, w)
    ensures RetryStatus(env, w) == StatusFor(env.script(|now.calls|), attempt)
  {
    assert w.calls + Repeat(call, attempt - 1) + [call] == w.calls + Repeat(call, attempt);
  }

  lemma AttemptGoesOn(env: Env, call: Call, w: World, now: World, attempt: nat, backoff: nat)
    requires Usable(env.cfg) && 1 <= attempt <= env.cfg.maxAttempts
    requires Retrying(env, call, w, now, attempt, backoff) && IsTransient(env.script(|now.calls|))
    ensures var next := now.(calls := now.calls + [call]);
      if attempt < env.cfg.maxAttempts
      then Retrying(env, call, w, next.(slept := next.slept + [backoff]), attempt + 1, Doubled(backoff))
      else Retrying(env, call, w, next, attempt + 1, backoff)
  {
    assert w.calls + Repeat(call, attempt - 1) + [call] == w.calls + Repeat(call, attempt);
    var left := CallsMade(env.script, |now.calls|, env.cfg.maxAttempts - attempt + 1);
    if attempt < env.cfg.maxAttempts {
      CallsMadeExactly(env.script, |now.calls| + 1, env.cfg.maxAttempts - attempt);
      assert now.slept + Backoffs(backoff, left - 1) == now.slept + [backoff] + Backoffs(Doubled(backoff), left - 2);
    }
  }

  /** `retry`. */
  method Retry(facade: Facade, call: Call) returns (status: RowStatus)
    requires Usable(facade.env.cfg)
    modifies facade
    ensures status == RetryStatus(facade.env, old(facade.world))
    ensures facade.world == AfterRetry(facade.env, call, old(facade.world))
  {
    var cfg := facade.env.cfg;
    ghost var w := facade.world;
    var lastErr: Option<WalletError> := None;
    var backoff := cfg.baseBackoff;
    for attempt := 1 to cfg.maxAttempts + 1
      invariant Retrying(facade.env, call, w, facade.world, attempt, backoff)
      invariant attempt > 1 ==>
        && lastErr.Some? && Classify(lastErr.value) == Transient
        && facade.env.script(|facade.world.calls| - 1) == Failure(lastErr.value)
    {
      ghost var now := facade.world;
      var response := facade.Invoke(call);
      if IsTransient(response) {
        AttemptGoesOn(facade.env, call, w, now, attempt, backoff);
      } else {
        AttemptStops(facade.env, call, w, now, attempt, backoff);
      }
      match response {
        case Success =>
          return Advanced;
        case Failure(e) =>
          match Classify(e) {
            case Benign =>
              return NoOp(AlreadyMoved(e));
            case Fatal =>
              return Failed(e, Fatal, attempt);
            case Transient =>
              lastErr := Some(e);
              if attempt < cfg.maxAttempts {
                facade.SleepFor(backoff);
                backoff := Doubled(backoff);
              }
          }
      }
    }
    status := Failed(lastErr.value, Classify(lastErr.value), cfg.maxAttempts);
  }

  method HandleSendSwap(facade: Facade, swap: SendSwapRow) returns (outcome: RowOutcome)
    requires Usable(facade.env.cfg)
    modifies facade
    ensures (outcome, facade.world) == RowResult(facade.env, swap, old(facade.world))
  {
    var kind, status;
    match swap.sendState {
      case SendDraft =>
        status := Retry(facade, Call(ResumeSendSwapDraft, swap.id));
        kind := SendSwapDraft;
      case SendPending =>
        status := Retry(facade, Call(CheckSendTokenClaimed, swap.id));
        kind := SendSwapPending;
      case _ =>
        kind, status := SendSwapPending, NoOp(UnexpectedState);
    }
    outcome := RowOutcome(swap.id, kind, status);
  }

  method HandleReceiveSwap(facade: Facade, swap: ReceiveSwapRow) returns (outcome: RowOutcome)
    requires Usable(facade.env.cfg)
    modifies facade
    ensures (outcome, facade.world) == RowResult(facade.env, swap, old(facade.world))
  {
    var status := Retry(facade, Call(ResumeReceiveSwap, swap.id));
    outcome := RowOutcome(swap.id, ReceiveSwapPending, status);
  }

  method HandleMintQuote(facade: Facade, quote: MintQuoteRow) returns (outcome: RowOutcome)
    requires Usable(facade.env.cfg)
    modifies facade
    ensures (outcome, facade.world) == RowResult(facade.env, quote, old(facade.world))
  {
    var status;
    if quote.mintState == MintUnpaid {
      var now := facade.Now();
      if quote.expiresAt < now {
        status := Retry(facade, Call(ExpireMintQuote, quote.id));
        return RowOutcome(quote.id, MintQuoteExpire, status);
      }
    }
    var kind;
    match quote.mintState {
      case MintUnpaid =>
        status := Retry(facade, Call(PollReceiveLightning, quote.id));
        kind := MintQuoteUnpaid;
      case MintPaid =>
        status := Retry(facade, Call(CompleteReceiveLightning, quote.id));
        kind := MintQuotePaid;
      case _ =>
        kind, status := MintQuotePaid, NoOp(UnexpectedState);
    }
    outcome := RowOutcome(quote.id, kind, status);
  }

  method HandleMeltQuote(facade: Facade, quote: MeltQuoteRow) returns (outcome: RowOutcome)
    requires Usable(facade.env.cfg)
    modifies facade
    ensures (outcome, facade.world) == RowResult(facade.env, quote, old(facade.world))
  {
    var kind, status;
    match quote.meltState {
      case MeltUnpaid =>
        kind := MeltQuoteUnpaidExpire;
        var now := facade.Now();
        if quote.expiresAt < now {
          status := Retry(facade, Call(ExpireMeltQuote, quote.id));
        } else {
          status := NoOp(NotYetExpired);
        }
      case MeltPending =>
        status := Retry(facade, Call(PollSendLightning, quote.id));
        kind := MeltQuotePending;
      case _ =>
        kind, status := MeltQuotePending, NoOp(UnexpectedState);
    }
    outcome := RowOutcome(quote.id, kind, status);
  }

  lemma SweepAppend(env: Env, rows: seq<Row>, row: Row, w: World)
    requires Usable(env.cfg)
    ensures var (outcomes, before) := SweepRows(env, rows, w);
      var (outcome, after) := RowResult(env, row, before);
      SweepRows(env, rows + [row], w) == (outcomes + [outcome], after)
  {
    assert (rows + [row])[..|rows|] == rows;
  }

  lemma OneMore(env: Env, done: seq<Row>, rows: seq<Row>, i: nat, w: World)
    requires Usable(env.cfg) && i < |rows|
    ensures var (outcomes, before) := SweepRows(env, done + rows[..i], w);
      var (outcome, after) := RowResult(env, rows[i], before);
      SweepRows(env, done + rows[..i + 1], w) == (outcomes + [outcome], after)
  {
    SweepAppend(env, done + rows[..i], rows[i], w);
    assert done + rows[..i] + [rows[i]] == done + rows[..i + 1];
  }

  /** The report so far is the sweep of the rows done so far. */
  predicate SweptSoFar(facade: Facade, report: SweepReport, done: seq<Row>, w: World)
    requires Usable(facade.env.cfg)
    reads facade, report
  {
    report.Valid() && (report.outcomes, facade.world) == SweepRows(facade.env, done, w)
  }

  // The four loops of `sweep_snapshot`.

  method SweepSendSwaps(facade: Facade, sendSwaps: seq<SendSwapRow>, report: SweepReport,
                        ghost done: seq<Row>, ghost w: World)
    requires Usable(facade.env.cfg) && SweptSoFar(facade, report, done, w)
    modifies facade, report
    ensures SweptSoFar(facade, report, done + sendSwaps, w)
  {
    assert done + sendSwaps[..0] == done;
    for i := 0 to |sendSwaps|
      invariant SweptSoFar(facade, report, done + sendSwaps[..i], w)
    {
      var outcome := HandleSendSwap(facade, sendSwaps[i]);
      report.Record(outcome);
      OneMore(facade.env, done, sendSwaps, i, w);
    }
    assert sendSwaps[..|sendSwaps|] == sendSwaps;
  }

  method SweepReceiveSwaps(facade: Facade, receiveSwaps: seq<ReceiveSwapRow>, report: SweepReport,
                           ghost done: seq<Row>, ghost w: World)
    requires Usable(facade.env.cfg) && SweptSoFar(facade, report, done, w)
    modifies facade, report
    ensures SweptSoFar(facade, report, done + receiveSwaps, w)
  {
    assert done + receiveSwaps[..0] == done;
    for i := 0 to |receiveSwaps|
      invariant SweptSoFar(facade, report, done + receiveSwaps[..i], w)
    {
      var outcome := HandleReceiveSwap(facade, receiveSwaps[i]);
      report.Record(outcome);
      OneMore(facade.env, done, receiveSwaps, i, w);
    }
    assert receiveSwaps[..|receiveSwaps|] == receiveSwaps;
  }

  method SweepMintQuotes(facade: Facade, mintQuotes: seq<MintQuoteRow>, report: SweepReport,
                         ghost done: seq<Row>, ghost w: World)
    requires Usable(facade.env.cfg) && SweptSoFar(facade, report, done, w)
    modifies facade, report
    ensures SweptSoFar(facade, report, done + mintQuotes, w)
  {
    assert done + mintQuotes[..0] == done;
    for i := 0 to |mintQuotes|
      invariant SweptSoFar(facade, report, done + mintQuotes[..i], w)
    {
      var outcome := HandleMintQuote(facade, mintQuotes[i]);
      report.Record(outcome);
      OneMore(facade.env, done, mintQuotes, i, w);
    }
    assert mintQuotes[..|mintQuotes|] == mintQuotes;
  }

  method SweepMeltQuotes(facade: Facade, meltQuotes: seq<MeltQuoteRow>, report: SweepReport,
                         ghost done: seq<Row>, ghost w: World)
    requires Usable(facade.env.cfg) && SweptSoFar(facade, report, done, w)
    modifies facade, report
    ensures SweptSoFar(facade, report, done + meltQuotes, w)
  {
    assert done + meltQuotes[..0] == done;
    for i := 0 to |meltQuotes|
      invariant SweptSoFar(facade, report, done + meltQuotes[..i], w)
    {
      var outcome := HandleMeltQuote(facade, meltQuotes[i]);
      report.Record(outcome);
      OneMore(facade.env, done, meltQuotes, i, w);
    }
    assert meltQuotes[..|meltQuotes|] == meltQuotes;
  }

  /** `sweep_snapshot`. */
  method SweepSnapshot(facade: Facade, snapshot: Snapshot) returns (report: SweepReport)
    requires Usable(facade.env.cfg)
    modifies facade
    ensures fresh(report) && report.Valid()
    ensures var rows := snapshot.sendSwaps + snapshot.receiveSwaps + snapshot.mintQuotes + snapshot.meltQuotes;
      rows == snapshot.Rows() && (report.outcomes, facade.world) == SweepRows(facade.env, rows, old(facade.world))
  {
    report := new SweepReport();
    ghost var w := facade.world;
    ghost var done: seq<Row> := snapshot.sendSwaps;
    assert [] + done == done;
    SweepSendSwaps(facade, snapshot.sendSwaps, report, [], w);
    SweepReceiveSwaps(facade, snapshot.receiveSwaps, report, done, w);
    done := done + snapshot.receiveSwaps;
    SweepMintQuotes(facade, snapshot.mintQuotes, report, done, w);
    done := done + snapshot.mintQuotes;
    SweepMeltQuotes(facade, snapshot.meltQuotes, report, done, w);
  }
}
