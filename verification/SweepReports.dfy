/** What a sweep reports. */
module SweepReports {
  import opened SweepErrors

  datatype RowKind =
    | SendSwapDraft | SendSwapPending | ReceiveSwapPending
    | MintQuoteUnpaid | MintQuotePaid | MintQuoteExpire
    | MeltQuotePending | MeltQuoteUnpaidExpire

  datatype NoOpReason = AlreadyMoved(error: WalletError) | UnexpectedState | NotYetExpired

  datatype RowStatus =
    | Advanced
    | NoOp(reason: NoOpReason)
    | Failed(error: WalletError, errorClass: ErrorClass, attempts: nat)

  datatype RowOutcome = RowOutcome(rowId: nat, kind: RowKind, status: RowStatus)

  function CountAdvanced(outcomes: seq<RowOutcome>): nat {
    if outcomes == [] then 0
    else CountAdvanced(outcomes[..|outcomes| - 1]) + if outcomes[|outcomes| - 1].status.Advanced? then 1 else 0
  }

  function CountNoOp(outcomes: seq<RowOutcome>): nat {
    if outcomes == [] then 0
    else CountNoOp(outcomes[..|outcomes| - 1]) + if outcomes[|outcomes| - 1].status.NoOp? then 1 else 0
  }

  function CountFailed(outcomes: seq<RowOutcome>): nat {
    if outcomes == [] then 0
    else CountFailed(outcomes[..|outcomes| - 1]) + if outcomes[|outcomes| - 1].status.Failed? then 1 else 0
  }

  /** Every row is counted once. */
  lemma {:induction false} CountsPartition(outcomes: seq<RowOutcome>)
    ensures CountAdvanced(outcomes) + CountNoOp(outcomes) + CountFailed(outcomes) == |outcomes|
    ensures CountFailed(outcomes) == 0 <==> forall i :: 0 <= i < |outcomes| ==> !outcomes[i].status.Failed?
  {
    if outcomes != [] {
      CountsPartition(outcomes[..|outcomes| - 1]);
    }
  }

  class SweepReport {
    var rowsSeen: nat
    var advanced: nat
    var noOp: nat
    var failed: nat
    var outcomes: seq<RowOutcome>

    predicate Valid()
      reads this
    {
      && rowsSeen == |outcomes|
      && advanced == CountAdvanced(outcomes)
      && noOp == CountNoOp(outcomes)
      && failed == CountFailed(outcomes)
    }

    constructor ()
      ensures Valid() && outcomes == []
    {
      rowsSeen, advanced, noOp, failed, outcomes := 0, 0, 0, 0, [];
    }

    method Record(outcome: RowOutcome)
      requires Valid()
      modifies this
      ensures Valid() && outcomes == old(outcomes) + [outcome]
    {
      rowsSeen := rowsSeen + 1;
      match outcome.status {
        case Advanced => advanced := advanced + 1;
        case NoOp(_) => noOp := noOp + 1;
        case Failed(_, _, _) => failed := failed + 1;
      }
      assert (outcomes + [outcome])[..|outcomes|] == outcomes;
      outcomes := outcomes + [outcome];
    }

    method AllClean() returns (clean: bool)
      requires Valid()
      ensures clean <==> forall i :: 0 <= i < |outcomes| ==> !outcomes[i].status.Failed?
      ensures rowsSeen == advanced + noOp + failed
    {
      CountsPartition(outcomes);
      clean := failed == 0;
    }
  }
}
