# Agicash wallet core: a Dafny model

The model covers the parts of the wallet where order, failure or rounding decide
whether money arrives.

* **Resumption driver.** `DriverTask` is a step machine: one step for every load or
  store of an atomic, every channel operation and every poll of a `select!` arm.
  The trigger task, any number of `stop()` and `notify_foreground()` calls, the
  realtime publisher and the fallback timer interleave freely, and atomics are
  sequentially consistent. `DriverTaskSafety` proves what holds after every
  interleaving, `DriverTaskProgress` how soon a trigger or a `stop` is acted on,
  `DriverInputs` that every event, overrun and tick it takes is tracked and marked,
  `DriverBursts` what a queue of events and a closed broadcast lead to, and
  `DriverForeground` what becomes of a foreground edge. `DriverShared` is the code
  between two awaits, written with fields and loops and proved against the same
  specification; `DriverBursts` proves that the step machine, left alone, does exactly
  what those methods do.
* **Sweep.** `Sweep` and `SweepReports` are the retry loop inside the four row
  loops. The facade and the clock are scripts that may answer anything; the trace of
  calls, clock readings and sleeps is part of the state. `SweepProperties` proves
  isolation, cost and the absence of a second payment over any number of sweeps, and
  `SweepOutcomes` reads every reported outcome off the calls and their answers.
* **Blind-signature matching.** `DleqMatching` is the trial matcher of NUT-08 change
  and the positional verifier, with DLEQ verification (NUT-12) as an arbitrary
  predicate. `DleqProperties` says when greedy matching finds every pairing.
* **Money.** `Rounding`, `MoneyModel` and `ExchangeRate` compute with exact decimals
  (`real`) and write out the three rounding modes.
* **Session files.** `SessionStorage` is a directory of two files that share one
  temporary file, changed by file-system steps; a call may be cut in front of any
  of its steps, and a cut write leaves anything behind. `SessionProperties` proves
  that such calls behave like atomic updates of a single value.
* **Lifecycle slots and client cache.** `LifecycleSlots` and `ClientCache` interleave
  any number of calls at the granularity of one lock.
* **Token scanner and realtime wire.** `TokenScanner`, `PhoenixCodec` and
  `PhoenixClient` refine declarative descriptions: a leftmost longest match, a frame
  layout, and the language of events one connection publishes. `RealtimeSupervisor`
  strings connections together with the statuses published between them and feeds
  them to the driver's `connected` flag.

Where the code and what is written about it disagree, the model follows the code:

* A foreground edge does not always resume the driver. A sweep that returns
  `Unauthenticated` after the clear overwrites it
  (`crates/agicash-driver/src/task.rs:664`), and the sweep the edge asked for can start
  paused. Whether it can is decided at the clear by whether such a sweep is under way
  (`DriverForeground.ClearKeptIff`), and at the mark by that and the flag
  (`.MarkKeptIff`); it cannot if no such sweep is under way at the clear and none
  starts before the mark (`.EdgeKept`). Each way of losing it is shown
  (`.ForegroundEdgeOverwritten`, `.EdgeLostWithoutSweep`).
* A closed broadcast is logged as "continues on waker triggers only". The event arm of
  the biased select is then always ready, so an idle task spins instead of sleeping
  (`DriverBursts.SleepsIffOpen`), and at most one more tick gets through
  (`.ClosedBroadcastSilencesTick`).
* The fallback tick is described as the backstop for a realtime connection that is
  down. Going offline or to the background closes the channel without publishing a
  status, so the driver still counts itself connected
  (`RealtimeSupervisor.ConnectedIff`, `.SilentPause`) and makes no tick mark
  (`DriverBursts.TickOnlyWhileDown`).
* `MatchedChange` is described as reordered to the blanks; both vectors are in the
  order of the signatures (`DleqMatching.MatchBlindSignatures`), which is the order of
  the blanks exactly when the signatures arrived in it (`DleqProperties.BlankOrderIff`).
* `divide` is described as flooring; it rounds toward zero
  (`MoneyModel.DivideFloorsIff`).
* The documented token grammar needs an alphabet byte behind `cashuA`; the scan also
  takes `cashuA=` (`TokenScanner.AgreesIff`).
* `serve_step` and `run_once` are described as returning `Ok(false)` and `Ok(())` on a
  clean end; neither ever does (`PhoenixClient.Client.ServeStep`, `.RunOnce`).

## Model

| member | source | states |
|---|---|---|
| DriverTaskSafety.NoLostWakeup | crates/agicash-driver/src/task.rs:688-729 | In every interleaving, a parked task with `pending` or `stop` set has a waker pulse queued or a caller between its store and its poke |
| DriverTaskSafety.NoLostTrigger | crates/agicash-driver/src/task.rs:261-266 | In every interleaving `pending` is set exactly while some mark has no sweep start after it |
| DriverTaskSafety.AsleepMeansServed | crates/agicash-driver/src/task.rs:547-586 | When the task sleeps and no pulse is queued or on its way, every mark ever made was followed by the start of a sweep |
| DriverTaskSafety.Coalescing | crates/agicash-driver/src/task.rs:330-336 | Sweeps started, plus one if a trigger is pending, never exceed the marks made |
| DriverTaskSafety.StopBound | crates/agicash-driver/src/task.rs:294-303 | At most one sweep starts after a `stop` store, and the task exits only after one |
| DriverTaskSafety.PauseDiscipline | crates/agicash-driver/src/task.rs:855-890 | A sweep that starts while paused follows a foreground mark made since the previous start, and no mark of another kind was made in between |
| DriverTaskSafety.PausedExactly | crates/agicash-driver/src/task.rs:657-665 | The driver is paused exactly when a sweep returned Unauthenticated, its pause was stored, and no foreground call has cleared the flag since that store; a return whose pause is not stored yet means exactly that the task stands between the two |
| DriverTaskSafety.StepKeepsInv | crates/agicash-driver/src/task.rs:528-588 | Every step of the task, a caller, the publisher or the timer keeps the invariant that ties the four atomics and the pulse to the marks, sweeps and pauses logged |
| DriverTaskProgress.PendingTriggerIsSwept | crates/agicash-driver/src/task.rs:547-564 | From any reachable state with a trigger pending and no pulse owed, wherever the calls in progress stand, the trigger task alone reaches the start of a sweep |
| DriverTaskProgress.StopIsObeyed | crates/agicash-driver/src/task.rs:294-303 | From any reachable state with `stop` stored and no pulse owed, the trigger task alone reaches its exit |
| DriverTaskProgress.SweptWithin | crates/agicash-driver/src/task.rs:547-586 | Whatever the callers and the timer do in between, a pending trigger of a task that is not parked, or has its pulse, gets its sweep within a number of task steps linear in the queue, given no publication and no stop |
| DriverTaskProgress.StopsWithin | crates/agicash-driver/src/task.rs:294-303 | After `stop` and its pulse the task takes at most that many steps, and after them it has exited, whatever the callers and the timer do, given no publication |
| DriverTaskProgress.Distance | crates/agicash-driver/src/task.rs:547-586 | That number is at most 12 times the queued events plus 83 |
| DriverTaskProgress.SoloIsRun | crates/agicash-driver/src/task.rs:528-588 | The task running alone is one of the interleavings, so what is proved of it happens on real runs |
| DriverBursts.SoloDrain | crates/agicash-driver/src/task.rs:610-634 | Step by step, draining alone handles every queued event in order, exactly as the loop method does, and starts no sweep |
| DriverBursts.SoloSweep | crates/agicash-driver/src/task.rs:640-682 | Step by step, one sweep alone clears `pending` first, counts after the return, and pauses exactly on Unauthenticated |
| DriverBursts.BurstCostsOneSweep | crates/agicash-driver/src/task.rs:601-609 | A queue of any length costs one sweep if it holds a trigger, lost events or a pending mark, and none otherwise |
| DriverBursts.ClosedBroadcastSilencesTick | crates/agicash-driver/src/task.rs:703-728 | Once every sender is gone, at most one further tick marks a trigger, the one whose arm was already being polled, and a task that is neither asleep nor polling that arm never sleeps again |
| DriverBursts.LastTick | crates/agicash-driver/src/task.rs:703-728 | That one further mark can happen |
| DriverBursts.SleepsIffOpen | crates/agicash-driver/src/task.rs:703-728 | With no pulse, event or tick to take, the trigger task left alone falls asleep exactly when the broadcast is open |
| DriverBursts.TickOnlyWhileDown | crates/agicash-driver/src/task.rs:719-728 | In no run does the fallback tick mark a trigger while the trigger task counts itself connected |
| RealtimeEvents.TriggerOfIff | crates/agicash-driver/src/task.rs:855-909 | A join asks for a sweep, and so does an update of one of the four row kinds; no other event does |
| RealtimeEvents.TrackIff | crates/agicash-driver/src/task.rs:855-890 | A join or the status Subscribed sets `connected`, every other status clears it, no other event touches it |
| DriverInputs.ConnectedIsTracked | crates/agicash-driver/src/task.rs:539-586 | In every interleaving `connected` is the tracking of everything the trigger task received, parked or draining, in order |
| DriverInputs.InputsAreMarked | crates/agicash-driver/src/task.rs:610-729 | In every interleaving, by the time the trigger task next loads `stop`, receives, looks at `pending` or polls, every event, overrun and tick it took has had the mark it asks for, unless `paused` was set when that was checked |
| DriverInputs.OneAtATime | crates/agicash-driver/src/task.rs:610-729 | No input that asks for a mark is taken while the mark of an earlier one is owed |
| DriverInputs.QueueInOrder | crates/agicash-realtime/src/service.rs:145-148 | What left the queue and what is in it are the publications in their order, and at most 256 wait |
| DriverInputs.OverrunIff | crates/agicash-realtime/src/service.rs:145-148 | A publication drops the oldest event exactly when 256 are queued, and then leaves the overrun to be noticed |
| DriverInputs.LeavesSelectIff | crates/agicash-driver/src/task.rs:703-728 | Left alone, a sleeping task leaves the select exactly if a pulse, an event, the end of the broadcast or a due tick is there |
| DriverInputs.CountersExactly | crates/agicash-driver/src/task.rs:214-236 | In every interleaving the sweep count is the sweeps that returned, but for one not counted yet, and the reasons seen, the re-run's own apart, are those of marks made or about to be made |
| DriverForeground.ClearKeptIff | crates/agicash-driver/src/task.rs:314-321 | The next sweep after a foreground call clears `paused` starts unpaused in every continuation exactly if no sweep is under way that may still pause the driver, or `stop` is stored |
| DriverForeground.MarkKeptIff | crates/agicash-driver/src/task.rs:314-321 | The next sweep after its mark starts unpaused in every continuation exactly if the driver is not paused and no such sweep is under way, or no sweep can start any more |
| DriverForeground.EdgeKept | crates/agicash-driver/src/task.rs:314-321 | If no such sweep is under way at the clear and none starts before the mark, the sweep the call asks for starts unpaused in every continuation |
| DriverForeground.SafeRun | crates/agicash-driver/src/task.rs:640-664 | From a state that satisfies the condition every run keeps it up to the next start of a sweep, and that start is unpaused |
| DriverForeground.ClearedTooEarly | crates/agicash-driver/src/task.rs:314-321 | With a trigger pending and no sweep under way, the clear can be followed by a sweep that returns Unauthenticated before the mark is made |
| DriverForeground.EdgeLostWithoutSweep | crates/agicash-driver/src/task.rs:657-665 | That happens on a run from the start, and the sweep the call asks for can then start paused |
| DriverForeground.NotifyAlone | crates/agicash-driver/src/task.rs:317-321 | An undisturbed foreground call clears `paused` before it marks, logs both in that order, and changes just those flags, the reason and the pulse |
| DriverForeground.StopAlone | crates/agicash-driver/src/task.rs:300-303 | An undisturbed `stop()` stores the flag, pokes, and does nothing else |
| DriverForeground.ForegroundEdgeOverwritten | crates/agicash-driver/src/task.rs:657-665 | In any sweeping state with no call in progress and nothing queued, a whole foreground call can be overwritten: the re-run succeeds and the driver remains paused with nothing pending |
| DriverForeground.PausedAfterSuccess | crates/agicash-driver/src/task.rs:657-665 | There is a run from the start that ends paused right after a successful sweep |
| DriverShared.Driver.constructor | crates/agicash-driver/src/task.rs:433-467 | A started driver has its initial mark before the task exists, and no pulse reaches anybody yet |
| DriverShared.EventReceiver.TryRecv | crates/agicash-driver/src/task.rs:615-633 | An overrun is reported once before any event; otherwise the oldest event, or whether the queue is empty or closed |
| DriverShared.Driver.Poke | crates/agicash-driver/src/task.rs:257-259 | A pulse is queued exactly if the task already listens, and stays queued if one was |
| DriverShared.Driver.Mark | crates/agicash-driver/src/task.rs:261-266 | The whole new shared state after a mark: reason noted, `pending` set, waker poked, nothing else |
| DriverShared.Driver.Stop | crates/agicash-driver/src/task.rs:300-303 | The effect of the caller's steps of a `stop()` taken together |
| DriverShared.Driver.NotifyForeground | crates/agicash-driver/src/task.rs:317-321 | The effect of the caller's steps of a `notify_foreground()` taken together |
| DriverShared.Driver.HandleRealtimeEvent | crates/agicash-driver/src/task.rs:855-890 | `Connected` and relevant rows mark unless paused, nothing else marks, and `connected` follows `Connected` and status events |
| DriverShared.Driver.DrainRealtimeEvents | crates/agicash-driver/src/task.rs:610-634 | The loop leaves the receiver empty, the shared state as after handling every event in order, and the flag as after tracking them all |
| DriverShared.Driver.RunOneSweep | crates/agicash-driver/src/task.rs:640-682 | The whole new shared state after a sweep with a given outcome |
| SweepErrors.BenignIff | crates/agicash-driver/src/error.rs:64-98 | An error is benign exactly when it is an untyped Cashu error with one of the three state messages somewhere in its text |
| SweepErrors.TransientIff | crates/agicash-wallet/src/error.rs:128-146 | Transient are exactly network and concurrency errors and two of the typed codes; other typed codes and Unauthenticated are fatal |
| SweepReports.CountsPartition | crates/agicash-driver/src/report.rs:60-76 | Advanced, no-op and failed rows add up to the rows, and none failed exactly when the failed count is zero |
| SweepReports.SweepReport.Record | crates/agicash-driver/src/report.rs:86-94 | The outcome is appended and all four counters still count the outcomes |
| SweepReports.SweepReport.AllClean | crates/agicash-driver/src/report.rs:78-84 | True exactly when no recorded outcome is a failure |
| Sweep.CallsMadeExactly | crates/agicash-driver/src/sweep.rs:317-359 | The number of attempts is the least after which the answer is not transient or the budget is spent |
| Sweep.Retry | crates/agicash-driver/src/sweep.rs:317-359 | The loop makes exactly that many identical calls and sleeps the doubled waits between them; the status is a function of the last answer and the number of calls, spelled out by SweepOutcomes.AnswerDecides |
| Sweep.HandleSendSwap | crates/agicash-driver/src/sweep.rs:121-163 | Outcome and trace of a send-swap row for every state, answer script and clock |
| Sweep.HandleReceiveSwap | crates/agicash-driver/src/sweep.rs:165-189 | Outcome and trace of a receive-swap row |
| Sweep.HandleMintQuote | crates/agicash-driver/src/sweep.rs:191-251 | Outcome and trace of a mint-quote row; only an unpaid quote reads the clock, and expiry is strict |
| Sweep.HandleMeltQuote | crates/agicash-driver/src/sweep.rs:253-310 | Outcome and trace of a melt-quote row; only an unpaid quote reads the clock, and expiry is strict |
| Sweep.SweepSnapshot | crates/agicash-driver/src/sweep.rs:85-113 | The four loops report the outcomes of all rows in snapshot order and leave the trace of that order |
| SweepProperties.EveryRowReported | crates/agicash-driver/src/sweep.rs:85-113 | Every row gets exactly one outcome, under its own id and in snapshot order, and the three counts add up to the rows |
| SweepProperties.RowByRow | crates/agicash-driver/src/sweep.rs:85-113 | Each outcome is what its row gives in the world the rows before it left |
| SweepOutcomes.AnswerDecides | crates/agicash-driver/src/sweep.rs:317-359 | A row that makes calls is advanced exactly if its last call was answered with success, already moved exactly on a benign error, else failed with that error, its class and the number of calls; earlier answers were all transient, and the last is only when the budget is spent |
| SweepOutcomes.SilentRow | crates/agicash-driver/src/sweep.rs:121-310 | A row makes no call exactly if it is reported as in an unexpected state or not yet expired |
| SweepOutcomes.AdvancedAreSuccesses | crates/agicash-driver/src/sweep.rs:85-113 | A sweep advances exactly as many rows as calls in its part of the trace were answered with success |
| SweepOutcomes.KindAndReason | crates/agicash-driver/src/sweep.rs:121-310 | Kind and no-op reason say which state the row was listed in and on which side of its expiry, and exactly unpaid quotes read the clock, once |
| SweepOutcomes.WaitsBetweenCalls | crates/agicash-driver/src/sweep.rs:317-359 | A row sleeps once between each two of its calls and at no other time, each time for the capped base times 2^k |
| SweepProperties.RowIsolation | crates/agicash-driver/src/sweep.rs:115-119 | Equal rows with equal clock readings and equal answers to the calls the first of them makes have equal outcomes and make equally many calls in any two sweeps, whatever else the snapshots hold and however their other rows are answered |
| SweepProperties.SameAnswers | crates/agicash-driver/src/sweep.rs:317-359 | A retry loop given the same answers to the calls it makes makes the same number of calls and ends on the same answer |
| SweepProperties.CallsOfRow | crates/agicash-driver/src/sweep.rs:115-119 | A row adds to the trace between one and `max_attempts` repeats of the one call its state selects, or nothing |
| SweepProperties.RowCallsInTrace | crates/agicash-driver/src/sweep.rs:317-359 | The calls a row is said to make are exactly those it adds to the trace |
| SweepProperties.MakerExists | crates/agicash-driver/src/sweep.rs:121-310 | Over any number of sweeps, every call in the trace was made by some row of some sweep, between the moments that row was reached and left |
| SweepProperties.CallsFitState | crates/agicash-driver/src/sweep.rs:121-310 | A call made by a row of a sweep names that row, and its method is meant for the state that very snapshot listed it in and for the row's own reading of the clock |
| SweepProperties.NoRepayment | crates/agicash-driver/src/sweep.rs:253-310 | Over any number of sweeps no call initiates a melt; each expiry call comes from a sweep whose own snapshot listed the melt quote unpaid and whose clock reading for it was past its expiry, each poll from one that listed it pending |
| SweepProperties.BackoffAt | crates/agicash-driver/src/sweep.rs:341-349 | Wait number k is the base times 2^k, capped at the longest duration, even though the code doubles the capped value |
| SweepProperties.BackoffSum | crates/agicash-driver/src/sweep.rs:341-349 | n waits add up to at most base times 2^n - 1 |
| SweepProperties.BackoffBound | crates/agicash-driver/src/sweep.rs:317-359 | A whole sweep waits at most rows times base times 2^(max_attempts - 1) - 1 |
| DleqMatching.VerifyBlindSignatures | crates/agicash-cashu/src/dleq.rs:107-139 | Succeeds exactly when the lengths agree and every signature verifies at its position or has no DLEQ; otherwise the first offender is reported with its own error |
| DleqMatching.MatchBlindSignatures | crates/agicash-cashu/src/dleq.rs:231-285 | The nested loops over the shrinking index set compute the greedy assignment, return the signatures in wire order with their blanks beside them, and report the first signature that fails |
| DleqMatching.AssignSound | crates/agicash-cashu/src/dleq.rs:202-229 | On success the blanks are pairwise different, every pair verifies, and each signature has the least blank the earlier ones left |
| DleqMatching.FirstFitExactly | crates/agicash-cashu/src/dleq.rs:256-270 | The inner search gives the least free blank that verifies, or none when there is none |
| DleqMatching.AssignStops | crates/agicash-cashu/src/dleq.rs:241-275 | A failure on a prefix of the signatures is the failure of the whole batch |
| DleqProperties.FirstRefused | crates/agicash-cashu/src/dleq.rs:238-275 | A failure is that of the first signature that cannot be matched: no DLEQ, no key for its amount, or no free blank that verifies, in this order |
| DleqProperties.Conservation | crates/agicash-cashu/src/dleq.rs:226-229 | On success matched and dropped blanks are together exactly the blanks sent, with one blank per signature |
| DleqProperties.TooManySignatures | crates/agicash-cashu/src/dleq.rs:231-285 | More signatures than blanks always fails |
| DleqProperties.FindsAssignment | crates/agicash-cashu/src/dleq.rs:202-229 | If each signature verifies against at most one blank, the matcher returns the injective pairing whenever there is one |
| DleqProperties.MatchesIffPossible | crates/agicash-cashu/src/dleq.rs:202-229 | Under that condition the matcher succeeds exactly when an injective verifying pairing exists |
| DleqProperties.FailsOnlyOnConflict | crates/agicash-cashu/src/dleq.rs:272-275 | Under that condition it fails exactly when a signature has no blank or two signatures claim the same one |
| DleqProperties.OrderIndependent | crates/agicash-cashu/src/dleq.rs:202-208 | Under that condition any permutation of the signatures succeeds too and yields the same set of signature-blank pairs |
| DleqProperties.BlankOrderIff | crates/agicash-cashu/src/dleq.rs:173-181 | Under that condition the matched blanks come out in the order they were sent exactly when the signatures arrived in that order |
| DleqProperties.WireOrderKept | crates/agicash-cashu/src/dleq.rs:277-284 | Two signatures that arrive the other way round are matched, and come out, the other way round |
| DleqProperties.MatchedPassesPositional | crates/agicash-cashu/src/dleq.rs:107-139 | What the matcher returns passes the positional verifier |
| DleqProperties.PositionalIsMatched | crates/agicash-cashu/src/dleq.rs:231-285 | If positions are right and every DLEQ is present, the matcher returns the positional pairing |
| DleqProperties.GreedyIncomplete | crates/agicash-cashu/src/dleq.rs:252-275 | Without the condition: two signatures and two blanks that can be paired, where one wire order fails and the other succeeds |
| Rounding.TruncThroughFinerGrid | crates/agicash-money/src/money.rs:160-170 | Rounding toward zero through a grid k times finer is rounding toward zero once, for either sign |
| Rounding.NearestError | crates/agicash-money/src/money.rs:144-155 | Half-away-from-zero and half-to-even rounding miss by at most half a step of the grid |
| Rounding.RoundIff | crates/agicash-money/src/money.rs:96-155 | Each of the three modes gives the one integer it is meant to: between zero and the value, nearest with ties away from zero, nearest with ties to even |
| Rounding.TruncError | crates/agicash-money/src/money.rs:96-101 | Rounding toward zero keeps the sign and drops less than a step of the grid |
| MoneyModel.ToUnitTicks | crates/agicash-money/src/money.rs:160-170 | Between any two units of a currency the factors reduce to a change of 1, 1000 or 1/1000 in least amounts, truncated toward zero |
| MoneyModel.ToUnitIff | crates/agicash-money/src/money.rs:160-210 | A change of unit succeeds exactly within sat, msat and major for bitcoin, cent and major for the dollars, or when there is nothing to change; else the error names the amount's own unit if that is foreign, and otherwise the target |
| MoneyModel.FinerAndBack | crates/agicash-money/src/money.rs:160-170 | Going to a unit at least as fine and back is the identity exactly on amounts without stray decimals, or when the unit is the same |
| MoneyModel.PathIndependence | crates/agicash-money/src/money.rs:160-170 | A stop at any unit at least as fine as the final one changes nothing, msat to sat to BTC included, with one exception stated exactly: an amount with stray decimals on its way back to its own unit |
| MoneyModel.CoarserAndBack | crates/agicash-money/src/money.rs:160-170 | Going to a unit at least as coarse and back loses less than one of it, toward zero, and keeps the sign |
| MoneyModel.DivideError | crates/agicash-money/src/money.rs:96-101 | A quotient keeps currency and unit and is rounded toward zero by less than one least amount of the unit |
| MoneyModel.SharesFit | crates/agicash-money/src/money.rs:96-101 | n shares of a non-negative amount never exceed it and fall short by less than n least amounts |
| MoneyModel.DivideFloorsIff | crates/agicash-money/src/money.rs:90-101 | The quotient is the documented floor exactly when it is not negative or needs no rounding |
| MoneyModel.ConvertError | crates/agicash-money/src/money.rs:144-155 | A conversion misses the exact product by at most half the target's least amount |
| MoneyModel.ConvertIff | crates/agicash-money/src/money.rs:148-154 | A conversion is the amount of the target nearest to the exact product, and on a tie the one farther from zero, and no other |
| ExchangeRate.InverseError | crates/agicash-exchange-rate/src/mempool.rs:121-134 | With p the two-place price and r the eight-place inverse, p times r differs from one by at most p times half of 1e-8 |
| ExchangeRate.RateIff | crates/agicash-exchange-rate/src/mempool.rs:117-132 | The price is the nearest of two decimal places and its inverse the nearest of eight, ties to even, and no other |
| ExchangeRate.SupportedIff | crates/agicash-exchange-rate/src/mempool.rs:98-120 | Only bitcoin against the dollar has a rate; the other pairs are refused before any price is looked at, and a missing price only after |
| ExchangeRate.InverseRefusedIff | crates/agicash-exchange-rate/src/mempool.rs:127-133 | The inverse is refused exactly for prices within half a cent of zero, the tie included |
| ExchangeRate.InverseVanishesIff | crates/agicash-exchange-rate/src/mempool.rs:128-134 | The inverse that passes the zero guard is itself zero exactly for prices of 200 million dollars or more |
| ExchangeRate.RoundTripError | crates/agicash-money/src/money.rs:144-155 | Converting x BTC to dollars and back misses x by at most 0.005 r + x p 0.5e-8 + 0.5e-8 |
| SessionStorage.AtomicWrite | crates/agicash-auth-opensecret/src/android_storage.rs:246-268 | However an atomic write is cut, the file holds its old content or all of the new, and only the temporary file may hold a part |
| SessionStorage.DataDir.WriteFileAtomically | crates/agicash-auth-opensecret/src/android_storage.rs:248-268 | The directory after a write then rename, finished or cut at any step, and success exactly when both were done |
| SessionStorage.DataDir.RemoveIfExists | crates/agicash-auth-opensecret/src/android_storage.rs:270-280 | The directory after an unlink that tolerates a missing file, done or cut |
| SessionStorage.DataDir.Store | crates/agicash-auth-opensecret/src/android_storage.rs:96-111 | The directory and the result of a store, cut anywhere: key file first if there is none, then the sealed session |
| SessionStorage.DataDir.Clear | crates/agicash-auth-opensecret/src/android_storage.rs:145-157 | The directory after a clear, cut anywhere, session first and then key; its report is spelled out by SessionProperties.ClearReportsIff |
| SessionProperties.BlobOpens | crates/agicash-auth-opensecret/src/android_storage.rs:166-209 | A sealed blob is the 12-byte nonce and then the ciphertext, and the same key opens it to the session that was sealed |
| SessionProperties.StoreKeeps | crates/agicash-auth-opensecret/src/android_storage.rs:96-111 | A store cut in front of any step updates the single-value form as a commit at its last step does |
| SessionProperties.ClearKeeps | crates/agicash-auth-opensecret/src/android_storage.rs:145-157 | A clear cut in front of any step updates the single-value form as a commit at its first step does |
| SessionProperties.CrashConsistency | crates/agicash-auth-opensecret/src/android_storage.rs:113-143 | After any calls that do not overlap, each finished or cut anywhere, a load succeeds and gives the value of the single-value form; a session file never stands without a key file |
| SessionProperties.OldOrNew | crates/agicash-auth-opensecret/src/android_storage.rs:96-157 | After a further call, cut anywhere, a load gives the old or the new value, the new one if it reported success, and the old one after a store that did not |
| SessionProperties.ResultIsCommit | crates/agicash-auth-opensecret/src/android_storage.rs:96-111 | A store reports success exactly when its session took the place of the old one |
| SessionProperties.ClearReportsIff | crates/agicash-auth-opensecret/src/android_storage.rs:145-157 | A clear reports success exactly if neither removal was cut, and then both files are gone; else an I/O error, with the directory as the removals done so far left it |
| SessionProperties.StoreReports | crates/agicash-auth-opensecret/src/android_storage.rs:96-111 | With a key, a store reports an I/O error exactly if it was cut, else the failure of the encoding, the random source or the cipher, or success |
| SessionProperties.KeylessStoreReports | crates/agicash-auth-opensecret/src/android_storage.rs:213-245 | A key file of the wrong size, or no key and no random bytes, is reported as such and changes nothing |
| SessionProperties.LoadReports | crates/agicash-auth-opensecret/src/android_storage.rs:113-143 | For any directory: nothing without a session file, the missing key, the wrong key size, each under its exact condition |
| SessionProperties.LoadOpens | crates/agicash-auth-opensecret/src/android_storage.rs:113-143 | With both files: the short blob, the failed opening, the failed decoding, or the session, each under its exact condition |
| SessionProperties.OverlapLosesSession | crates/agicash-auth-opensecret/src/android_storage.rs:248-249 | Two overlapping first stores, sharing the temporary file, can leave a session that its key file cannot open, although the store reported success |
| LifecycleSlots.EachAccountedFor | crates/agicash-ffi/src/wallet.rs:1611-1660 | In every interleaving of start and stop calls, each task, service and driver made is stopped, in its slot, or local to a start in progress, and only one of these |
| LifecycleSlots.AtMostOneRunning | crates/agicash-ffi/src/wallet.rs:1621-1638 | When no call is in progress, everything made is stopped except what the three slots hold |
| LifecycleSlots.AloneAligns | crates/agicash-ffi/src/wallet.rs:1611-1660 | A start or stop that runs alone leaves the three slots in step, whatever earlier overlapping calls did to them |
| LifecycleSlots.FilledTogether | crates/agicash-ffi/src/wallet.rs:1482-1500 | After calls that do not overlap, the three slots all hold what the start in force made, or are all empty when none is, and everything else is stopped |
| LifecycleSlots.OverlapMismatch | crates/agicash-ffi/src/wallet.rs:1621-1638 | Two overlapping starts can finish with the task of one and the service of the other, each missing its counterpart |
| LifecycleSlots.StartOrder | crates/agicash-ffi/src/wallet.rs:1621-1638 | A start that is interrupted has replaced the task first and the service second |
| LifecycleSlots.StopOrder | crates/agicash-ffi/src/wallet.rs:1645-1660 | A stop that is interrupted has emptied the service first and the task second |
| LifecycleSlots.RealtimeSlots.StartWalletEvents | crates/agicash-ffi/src/wallet.rs:1621-1638 | The slots after an undisturbed start: each holds the new, and what it held is stopped |
| LifecycleSlots.RealtimeSlots.StopWalletEvents | crates/agicash-ffi/src/wallet.rs:1645-1660 | The slots after an undisturbed stop: each is empty, and what it held is stopped |
| LifecycleSlots.EdgeReachesOne | crates/agicash-ffi/src/wallet.rs:1677-1721 | A lifecycle edge that overlaps no other call tells the service of the start in force and, if it is true, notifies the driver of the same start; with none in force, nobody |
| LifecycleSlots.EdgeDuringStart | crates/agicash-ffi/src/wallet.rs:1677-1721 | However an edge and a start interleave, it tells the service in force or the new one and notifies the driver in force or the new one; a false edge notifies nobody |
| LifecycleSlots.NewServiceOldDriver | crates/agicash-ffi/src/wallet.rs:1677-1721 | An edge that overlaps a start can tell the new service and notify the old driver |
| LifecycleSlots.OldServiceNewDriver | crates/agicash-ffi/src/wallet.rs:1677-1721 | An edge that overlaps a start can tell the old service and notify the new driver |
| ClientCache.SameClientIff | crates/agicash-cashu/src/provider.rs:30-45 | However calls interleave between the read lock and the write lock, two calls get the same client exactly when they ask for the same URL |
| ClientCache.NoneWasted | crates/agicash-cashu/src/provider.rs:38-45 | As many clients are built as the cache holds: the second look leaves none to throw away |
| ClientCache.EntriesStay | crates/agicash-cashu/src/provider.rs:30-45 | An entry of the cache is never replaced or removed |
| ClientCache.CdkCashuProvider.GetOrCreate | crates/agicash-cashu/src/provider.rs:30-45 | A hit returns the cached client and builds none; a miss returns and caches a client no other URL has |
| TokenScanner.FindTokenCandidate | crates/agicash-cashu/src/extract.rs:79-111 | The scan returns the longest match at the first place that has one, and nothing exactly when there is no match anywhere |
| TokenScanner.PrefixesApart | crates/agicash-cashu/src/extract.rs:102-106 | No prefix starts inside another, so the skip behind a bare prefix misses nothing |
| TokenScanner.ExtractCashuToken | crates/agicash-cashu/src/extract.rs:63-71 | The result is the first candidate if it decodes; otherwise nothing, and no later candidate is tried |
| TokenScanner.AgreesIff | crates/agicash-cashu/src/extract.rs:73-78 | The scan finds what the documented expression describes exactly when the first candidate is not a prefix followed by padding |
| TokenScanner.AlphabetIff | crates/agicash-cashu/src/extract.rs:113-120 | The alphabet is letters, digits, hyphen and underscore |
| PhoenixCodec.OutboundRoundTrip | crates/agicash-realtime/src/codec.rs:47-96 | A frame that was encoded decodes to the same five parts, an absent join reference included |
| PhoenixCodec.TextRefusedIff | crates/agicash-realtime/src/codec.rs:75-88 | Not JSON, not an array, not five elements: each refusal under its exact condition |
| PhoenixCodec.SegmentsCover | crates/agicash-realtime/src/codec.rs:109-125 | The four segments have the announced lengths and are together exactly the bytes behind the five-byte header |
| PhoenixCodec.ParseOfEncode | crates/agicash-realtime/src/codec.rs:97-125 | Parsing gives back the segments of any frame laid out as documented |
| PhoenixCodec.EncodeOfParse | crates/agicash-realtime/src/codec.rs:97-125 | Laying the parsed segments out again gives back the frame, byte for byte |
| PhoenixCodec.ParsesIff | crates/agicash-realtime/src/codec.rs:101-125 | Exactly the frames with the documented layout parse |
| PhoenixCodec.RefusedIff | crates/agicash-realtime/src/codec.rs:101-122 | Too short, another kind, truncated: each refusal of a binary frame under its exact condition |
| PhoenixCodec.Take | crates/agicash-realtime/src/codec.rs:114-122 | The cursor yields the next n bytes and moves behind them, or reports truncation and stays |
| PhoenixCodec.DecodeBinary | crates/agicash-realtime/src/codec.rs:101-155 | The cursor code yields the specified message or the specified error for every byte string |
| PhoenixCodec.BinaryMessage | crates/agicash-realtime/src/codec.rs:97-155 | A binary frame decodes to a broadcast of its topic without references, with the parsed JSON or else the Base64 text as payload, and with metadata exactly if that is JSON |
| PhoenixCodec.SameBroadcast | crates/agicash-realtime/src/client.rs:72-115 | A JSON-encoded binary frame and a text frame of the same broadcast are routed alike, whatever references, topic and extra keys the text frame has |
| PhoenixCodec.ChannelDownIff | crates/agicash-realtime/src/client.rs:94-101 | The channel goes down exactly on an error or close that is not of an earlier join |
| PhoenixCodec.ActionIff | crates/agicash-realtime/src/client.rs:72-93 | One condition on topic, event and status for each of: heartbeat answered, join accepted, join rejected with its reason, broadcast with its name and payload |
| PhoenixCodec.IgnoredIff | crates/agicash-realtime/src/client.rs:94-106 | Exactly other events, and errors and closes of an earlier join, are ignored |
| PhoenixClient.DecimalInjective | crates/agicash-realtime/src/client.rs:54-57 | Different reference numbers have different texts |
| PhoenixClient.Client.RefsDistinct | crates/agicash-realtime/src/client.rs:47-58 | Of the join, heartbeat, token and leave frames a client has sent, no two carry the same reference |
| PhoenixClient.Client.ConnectAndJoin | crates/agicash-realtime/src/client.rs:173-189 | Publishes Connecting first; succeeds exactly if the socket connects, a token is had and the join is sent; the join's reference is its join reference |
| PhoenixClient.JoinFrameSays | crates/agicash-realtime/src/client.rs:27-48 | The join frame names the user's topic, carries the token and version, and asks for a private channel without presence, echo or acknowledgement |
| PhoenixClient.OtherFramesSay | crates/agicash-realtime/src/client.rs:272-307 | Topic, event and payload of the heartbeat, token and leave frames |
| PhoenixClient.Client.ServeStep | crates/agicash-realtime/src/client.rs:196-254 | One answer of the transport publishes and returns what its routed action does; never the clean end the comment speaks of. What each frame leads to is in the rows below |
| PhoenixClient.AcceptedJoin | crates/agicash-realtime/src/client.rs:205-213 | A five-element reply frame with status "ok" outside the topic "phoenix" publishes exactly Subscribed and Connected, and serving goes on |
| PhoenixClient.RejectedJoin | crates/agicash-realtime/src/client.rs:214-219 | With any other status, or none, it publishes exactly the rejection with its reason, and serving fails with that |
| PhoenixClient.BroadcastServed | crates/agicash-realtime/src/client.rs:220-242 | A broadcast frame publishes exactly Event and then Change, with its name and rendered payload |
| PhoenixClient.DownServed | crates/agicash-realtime/src/client.rs:243-250 | An error or close of this join publishes exactly Reconnecting and ends serving; one of an earlier join does nothing |
| PhoenixClient.HeartbeatAnswered | crates/agicash-realtime/src/client.rs:251-252 | A reply on the topic "phoenix" publishes nothing |
| PhoenixClient.ServingFails | crates/agicash-realtime/src/client.rs:196-204 | The end of the stream, a transport error and a frame that does not decode publish nothing and fail as themselves |
| PhoenixClient.Client.RunOnce | crates/agicash-realtime/src/client.rs:256-267 | Never succeeds; publishes a word of Connecting (Subscribed Connected, Event Change)* (Error, Reconnecting)?, and exactly what serving the frames in order publishes |
| PhoenixClient.Client.SendHeartbeat | crates/agicash-realtime/src/client.rs:272-291 | Sends a heartbeat and, once joined, a fresh token under the next references; publishes nothing; the error of each way to fail |
| PhoenixClient.Client.LeaveAndClose | crates/agicash-realtime/src/client.rs:293-307 | Sends a leave frame under the next reference exactly if a join was begun, ignores whether it got through, and reports only the closing of the socket |
| PhoenixClient.ServeIsWord | crates/agicash-realtime/src/client.rs:196-254 | Whatever the transport delivers, serving publishes a word of that language |
| PhoenixClient.TrackCycle | crates/agicash-driver/src/task.rs:855-874 | After a cycle the driver counts itself connected exactly if the word holds Subscribed and no Reconnecting |
| RealtimeSupervisor.ServeWithHeartbeat | crates/agicash-realtime/src/service.rs:415-450 | The serving loop over answers, heartbeats and pulses publishes and returns what is specified for a fresh connection |
| RealtimeSupervisor.Supervisor.RunConnection | crates/agicash-realtime/src/service.rs:252-363 | After a connection the supervisor has published its events and then nothing after a pulse, Reconnecting after a failure, or TerminalError after the ninth join rejection counted, and latches the last |
| RealtimeSupervisor.ConnectionIsCycle | crates/agicash-realtime/src/service.rs:415-450 | A connection publishes a word of the cycle language, without Reconnecting if a pulse ended it |
| RealtimeSupervisor.ServesLikeClient | crates/agicash-realtime/src/service.rs:415-450 | Without heartbeats and pulses the loop is the client's own, to the same events and the same error |
| RealtimeSupervisor.HeartbeatEnds | crates/agicash-realtime/src/service.rs:445-447 | A heartbeat that goes through changes nothing; one that does not ends the connection with its error |
| RealtimeSupervisor.PulseEnds | crates/agicash-realtime/src/service.rs:435-437 | A pulse ends it cleanly, whatever would have come |
| RealtimeSupervisor.DialFails | crates/agicash-realtime/src/client.rs:173-189 | An attempt that does not send its join publishes only Connecting and fails for the first thing missing |
| RealtimeSupervisor.StatusAfter | crates/agicash-realtime/src/service.rs:293-363 | After a connection: nothing if a pulse ended it, TerminalError on the ninth rejection counted, Reconnecting after any other failure; and when the count starts anew |
| RealtimeSupervisor.ConnectedIff | crates/agicash-realtime/src/service.rs:293-363 | Over any number of connections the driver counts itself connected exactly if the last one joined and was ended by a pulse |
| RealtimeSupervisor.SilentPause | crates/agicash-realtime/src/service.rs:294-298 | After a reply frame with status "ok" and a pulse nothing more is published, so the driver still counts itself connected |
| RealtimeSupervisor.ClosedMeansDisconnected | crates/agicash-realtime/src/service.rs:366-369 | Once the supervisor has ended, the driver counts itself disconnected, whatever was published before |
| RealtimeSupervisor.TerminalsPaidFor | crates/agicash-realtime/src/service.rs:299-327 | No TerminalError is published for less than nine join rejections, and when no pulse ends a connection no rejection is forgotten |

## Left out

- `run_task` and `park_for_next_trigger` as loops: they run forever, so they are the steps of `DriverTask` instead of methods.
- `start()` a second time on the same driver: it returns a handle on the same shared state and changes nothing.
- `error_backoff` after a failed sweep, and any other passage of time: a step may take as long as it likes. Real memory orderings weaker than sequential consistency.
- `async_broadcast` beyond a queue of 256 that drops its oldest event: whether a receiver polled as a stream notices an overrun is left open (`keepLag`), so nothing is claimed about it while the task is parked.
- DriverTaskProgress.SweptWithin: assumes no publication, since an endless stream of them could keep the drain loop busy, and that the pulse owed to a parked task has been sent.
- The browser twins of the timer, the select and the storages: same logic, other primitives.
- The services behind the facade (send swap, receive swap, mint quote, melt quote), `refresh_pending_state`: an oracle of answers, or not modelled.
- Parking, backoff and the timers of the realtime supervisor: when a connection is attempted and how long it lasts is left open. Events that the broadcast drops on overflow are not modelled there.
- Sweep.Retry: `max_attempts` is taken as at least one, because zero reaches the `expect` at `crates/agicash-driver/src/sweep.rs:356`; its eight-bit width is not modelled.
- DLEQ cryptography and AES-GCM: a predicate, and a pair of functions of which decryption inverts encryption. `verify_proof_dleq`, `rs` and `secrets` have no state and no search.
- The 96-bit overflow and 28-digit rounding inside `rust_decimal`: amounts are exact. `try_add`, `try_sub`, `sum`, `min`, `max` and `multiply` are one addition, comparison or product each.
- The HTTP request of `get_rate` and the JSON of its answer: the parsed price, or its absence, is a parameter.
- Errors while reading the session or key file, file permissions, and writes that the disk loses after reporting them done.
- SessionProperties.CrashConsistency: calls that overlap are excluded because they break it, as `OverlapLosesSession` shows.
- Cancelling `start_wallet_events` between two slots, and the pump tasks it spawns.
- LifecycleSlots.FilledTogether: overlapping calls are excluded because they break it, as `OverlapMismatch` shows. The order in which a start or stop deals with the slots is in `StartOrder` and `StopOrder`, not in the contracts of the class.
- JSON parsing and printing, lossy UTF-8 and base64: arbitrary functions. `parse_change`: the typed change stands for the pair it is parsed from.
- Which reply completes a join: `classify` takes any `phx_reply` outside the topic "phoenix" as one, and nothing stronger is claimed.
- `build_connect_url`: string assembly only.
