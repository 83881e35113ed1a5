/**
 * Safety of the trigger task over every interleaving: wake-ups and triggers are
 * never lost, sweeps coalesce, `stop` takes effect, and a paused driver sweeps
 * only on a foreground edge.
 */
module DriverTaskSafety {
  import opened Wrappers
  import opened RealtimeEvents
  import opened DriverTask

  // ----- The invariant ---------------------------------------------------------

  predicate Parked(pc: Pc) {
    pc.PollWaker? || pc.PollEvents? || pc.PollTick? || pc.Asleep?
  }

  /** From the start of a sweep to the end of its loop iteration. */
  predicate InSweep(pc: Pc) {
    pc.Sweeping? || pc.CountSweep? || pc.Settle? || pc.CoalesceCheck? || pc.NoteCoalesced?
  }

  /** Past this iteration's load of `stop`, with its sweep not yet begun. */
  predicate PastStopCheck(pc: Pc) {
    !InSweep(pc) && !pc.Boot? && !pc.LoopCheck? && !pc.Exited?
  }

  /** A pulse is queued, or a call has made its store and still owes its pulse. */
  predicate WakeupComing(sh: Shared, callers: multiset<CallerPc>) {
    sh.pulse || PokeWaker in callers
  }

  predicate WakeInv(sh: Shared, pc: Pc, callers: multiset<CallerPc>) {
    && (PastStopCheck(pc) && sh.stop ==> WakeupComing(sh, callers))
    && (Parked(pc) && sh.pending ==> WakeupComing(sh, callers))
    && (pc.ClearPending? ==> sh.pending)
    && (pc.Boot? || sh.listening)
    && (pc.Exited? ==> sh.stop)
  }

  // Everything the invariant needs to know of a log.
  datatype Reading = Reading(
    marksSinceStart: nat,
    marks: nat,
    starts: nat,
    startsAfterStop: nat,
    stopStored: bool,
    pauseSet: bool,
    realtimeMark: bool,
    justified: bool)

  function Read(log: seq<Obs>): Reading {
    Reading(MarksSinceStart(log), CountMarks(log), CountStarts(log), StartsAfterStop(log), StopStored in log,
            LastPauseWriteSet(log), RealtimeMarkSinceStart(log), Justified(log))
  }

  function ReadOne(r: Reading, o: Obs): Reading {
    match o
    case Marked(reason) =>
      r.(marksSinceStart := r.marksSinceStart + 1, marks := r.marks + 1,
         realtimeMark := r.realtimeMark || reason != Foreground)
    case SweepStarted(whilePaused) =>
      r.(marksSinceStart := 0, starts := r.starts + 1, realtimeMark := false,
         startsAfterStop := r.startsAfterStop + if r.stopStored then 1 else 0,
         justified := r.justified && (whilePaused ==> r.marksSinceStart > 0 && !r.realtimeMark))
    case SweepReturned(_) => r
    case PauseSet => r.(pauseSet := true)
    case PauseCleared => r.(pauseSet := false)
    case StopStored => r.(stopStored := true)
  }

  function ReadNext(r: Reading, o: Option<Obs>): Reading {
    if o.Some? then ReadOne(r, o.value) else r
  }

  predicate LogInv(sh: Shared, pc: Pc, r: Reading) {
    && (sh.pending <==> r.marksSinceStart > 0)
    && r.starts + (if sh.pending then 1 else 0) <= r.marks
    && sh.stop == r.stopStored
    && r.startsAfterStop <= 1
    && (r.startsAfterStop > 0 ==> sh.stop && !PastStopCheck(pc))
    && sh.paused == r.pauseSet
  }

  /** The mark the task is about to make, if any, is not a foreground one and was not made while paused. */
  predicate MarkInv(sh: Shared, pc: Pc) {
    match pc
    case PausedCheck(reason, _) => reason != Foreground
    case NoteReason(reason, _) => reason != Foreground && !sh.paused
    case StorePending(reason, _) => reason != Foreground && !sh.paused
    case _ => true
  }

  /** Every sweep that started while paused had a trigger, and only foreground ones. */
  predicate Justified(log: seq<Obs>) {
    forall k :: 0 <= k < |log| && log[k] == SweepStarted(true) ==>
      MarksSinceStart(log[..k]) > 0 && !RealtimeMarkSinceStart(log[..k])
  }

  predicate PauseInv(sh: Shared, pc: Pc, r: Reading) {
    && MarkInv(sh, pc)
    && (InSweep(pc) || sh.paused ==> !r.realtimeMark)
    && r.justified
  }

  predicate Inv(c: Config) {
    var s, r := c.state, Read(c.log);
    PartInv(s.shared, s.pc, s.callers, r)
  }

  // ----- Its steps -------------------------------------------------------------

  lemma ReadAppend(log: seq<Obs>, o: Obs)
    ensures Read(log + [o]) == ReadOne(Read(log), o)
  {
    var log' := log + [o];
    assert log'[..|log'| - 1] == log && log'[|log|] == o;
    JustifiedAppend(log, o);
  }

  lemma JustifiedAppend(log: seq<Obs>, o: Obs)
    ensures Justified(log + [o]) <==>
            Justified(log) && (o == SweepStarted(true) ==> MarksSinceStart(log) > 0 && !RealtimeMarkSinceStart(log))
  {
    var log' := log + [o];
    assert forall k :: 0 <= k <= |log| ==> log'[..k] == log[..k];
    assert log[..|log|] == log && log'[|log|] == o;
    if Justified(log') {
      forall k | 0 <= k < |log| && log[k] == SweepStarted(true)
        ensures MarksSinceStart(log[..k]) > 0 && !RealtimeMarkSinceStart(log[..k])
      {
        assert log'[k] == SweepStarted(true);
      }
    }
  }

  predicate PartInv(sh: Shared, pc: Pc, callers: multiset<CallerPc>, r: Reading) {
    WakeInv(sh, pc, callers) && LogInv(sh, pc, r) && PauseInv(sh, pc, r)
  }

  predicate Queueing(pc: Pc) {
    pc.Drain? || pc.PollEvents? || pc.PollTick?
  }

  /** Receiving, polling and ticking lead to a mark, to the loop, or on to the next arm. */
  predicate QuietMove(pc: Pc, pc': Pc) {
    || (pc'.PausedCheck? && pc'.reason != Foreground)
    || pc'.Drain? || pc'.PendingCheck? || pc'.LoopCheck?
    || (Parked(pc) && Parked(pc'))
  }

  lemma QueueStep(s: State, outcome: Outcome, keepLag: bool)
    requires Queueing(s.pc)
    ensures var s' := TaskApply(s, outcome, keepLag);
      s'.shared == s.shared && s'.callers == s.callers && QuietMove(s.pc, s'.pc)
  {
  }

  lemma QuietKeepsAll(sh: Shared, pc: Pc, pc': Pc, callers: multiset<CallerPc>, r: Reading)
    requires PartInv(sh, pc, callers, r) && Queueing(pc) && QuietMove(pc, pc')
    ensures PartInv(sh, pc', callers, r)
  {
  }

  lemma SharedKeepsWake(sh: Shared, pc: Pc, callers: multiset<CallerPc>, outcome: Outcome)
    requires WakeInv(sh, pc, callers)
    ensures var (sh', pc') := SharedStep(sh, pc, outcome); WakeInv(sh', pc', callers)
  {
  }

  lemma SharedKeepsLog(sh: Shared, pc: Pc, callers: multiset<CallerPc>, r: Reading, outcome: Outcome)
    requires PartInv(sh, pc, callers, r)
    ensures var (sh', pc') := SharedStep(sh, pc, outcome);
      var r' := ReadNext(r, TaskEmits(sh, pc, outcome));
      LogInv(sh', pc', r') && PauseInv(sh', pc', r')
  {
  }

  lemma CallerKeepsAll(sh: Shared, pc: Pc, callers: multiset<CallerPc>, r: Reading, at: CallerPc)
    requires PartInv(sh, pc, callers, r) && at in callers
    ensures PartInv(CallerStore(sh, at), pc, callers - multiset{at} + CallerNext(at), ReadNext(r, CallerEmits(at)))
  {
  }

  lemma ReadLogged(log: seq<Obs>, o: Option<Obs>)
    ensures Read(Logged(log, o)) == ReadNext(Read(log), o)
  {
    if o.Some? { ReadAppend(log, o.value); }
  }

  lemma QueueKeepsInv(c: Config, outcome: Outcome, keepLag: bool)
    requires Inv(c) && Queueing(c.state.pc)
    ensures Inv(Step(c, TaskStep(outcome, keepLag)))
  {
    var s := c.state;
    var s' := TaskApply(s, outcome, keepLag);
    QueueStep(s, outcome, keepLag);
    QuietKeepsAll(s.shared, s.pc, s'.pc, s.callers, Read(c.log));
  }

  lemma SharedKeepsInv(c: Config, outcome: Outcome, keepLag: bool)
    requires Inv(c) && !Queueing(c.state.pc) && !c.state.pc.Exited?
    ensures Inv(Step(c, TaskStep(outcome, keepLag)))
  {
    var s, r := c.state, Read(c.log);
    ReadLogged(c.log, TaskEmits(s.shared, s.pc, outcome));
    SharedKeepsWake(s.shared, s.pc, s.callers, outcome);
    SharedKeepsLog(s.shared, s.pc, s.callers, r, outcome);
  }

  lemma StepKeepsInv(c: Config, a: Action)
    requires Inv(c) && Enabled(c.state, a)
    ensures Inv(Step(c, a))
  {
    match a
    case TaskStep(outcome, keepLag) =>
      if Queueing(c.state.pc) {
        QueueKeepsInv(c, outcome, keepLag);
      } else {
        SharedKeepsInv(c, outcome, keepLag);
      }
    case CallerStep(at) =>
      ReadLogged(c.log, CallerEmits(at));
      CallerKeepsAll(c.state.shared, c.state.pc, c.state.callers, Read(c.log), at);
    case _ =>
  }

  lemma {:induction false} RunInv(tickEnabled: bool, acts: seq<Action>, c: Config)
    requires IsRun(tickEnabled, acts, c)
    ensures Inv(c)
  {
    if acts == [] {
      ReadAppend([], Marked(InitialStart));
      assert c.log == [] + [Marked(InitialStart)];
    } else {
      var before := RunFrom(Init(tickEnabled), acts[..|acts| - 1]).value;
      RunInv(tickEnabled, acts[..|acts| - 1], before);
      StepKeepsInv(before, acts[|acts| - 1]);
    }
  }

  // ----- Reading the counters as positions in the log --------------------------

  predicate NoStartBetween(log: seq<Obs>, i: int, k: int)
    requires 0 <= i && k <= |log|
  {
    forall j :: i < j < k ==> !log[j].SweepStarted?
  }

  lemma {:induction false} MarksSinceStartIsLatest(log: seq<Obs>)
    ensures MarksSinceStart(log) > 0 <==> exists i :: 0 <= i < |log| && log[i].Marked? && NoStartBetween(log, i, |log|)
    ensures RealtimeMarkSinceStart(log) <==>
            exists i :: 0 <= i < |log| && log[i].Marked? && log[i].reason != Foreground && NoStartBetween(log, i, |log|)
  {
    if log != [] {
      var front := log[..|log| - 1];
      MarksSinceStartIsLatest(front);
      if !log[|log| - 1].SweepStarted? {
        assert forall i :: 0 <= i < |front| && NoStartBetween(front, i, |front|) ==> NoStartBetween(log, i, |log|);
        assert forall i :: 0 <= i < |front| && NoStartBetween(log, i, |log|) ==> NoStartBetween(front, i, |front|);
        assert NoStartBetween(log, |log| - 1, |log|);
      }
    }
  }

  lemma {:induction false} LastPauseWrite(log: seq<Obs>)
    ensures LastPauseWriteSet(log) <==>
            exists i :: 0 <= i < |log| && log[i] == PauseSet && forall j :: i < j < |log| ==> log[j] != PauseCleared
  {
    if log != [] {
      LastPauseWrite(log[..|log| - 1]);
      if LastPauseWriteSet(log[..|log| - 1]) && log[|log| - 1] != PauseCleared {
        var i :| 0 <= i < |log| - 1 && log[i] == PauseSet && forall j :: i < j < |log| - 1 ==> log[j] != PauseCleared;
        assert forall j :: i < j < |log| ==> log[j] != PauseCleared;
      }
    }
  }

  lemma {:induction false} StartsAfterStopCounts(log: seq<Obs>, i: nat, j: nat, k: nat)
    requires i < j < k < |log|
    requires log[i] == StopStored && log[j].SweepStarted? && log[k].SweepStarted?
    ensures StartsAfterStop(log) >= 2
  {
    var front := log[..|log| - 1];
    assert front[i] == StopStored;
    if k < |front| {
      StartsAfterStopCounts(front, i, j, k);
    } else {
      StartsOnceAfterStop(front, i, j);
    }
  }

  lemma {:induction false} StartsOnceAfterStop(log: seq<Obs>, i: nat, j: nat)
    requires i < j < |log| && log[i] == StopStored && log[j].SweepStarted?
    ensures StartsAfterStop(log) >= 1
  {
    var front := log[..|log| - 1];
    assert front[i] == StopStored;
    if j < |front| {
      StartsOnceAfterStop(front, i, j);
    }
  }

  lemma OnlyForegroundBefore(log: seq<Obs>, k: nat)
    requires k < |log| && MarksSinceStart(log[..k]) > 0 && !RealtimeMarkSinceStart(log[..k])
    ensures exists i :: 0 <= i < k && log[i] == Marked(Foreground) && NoStartBetween(log, i, k)
    ensures forall i :: 0 <= i < k && log[i].Marked? && NoStartBetween(log, i, k) ==> log[i] == Marked(Foreground)
  {
    var before := log[..k];
    MarksSinceStartIsLatest(before);
    assert forall i :: 0 <= i < k ==> (NoStartBetween(log, i, k) <==> NoStartBetween(before, i, k));
  }

  // ----- The theorems ----------------------------------------------------------

  /** No lost wake-up: a parked task with work to do has a pulse queued, or one on its way. */
  lemma NoLostWakeup(tickEnabled: bool, acts: seq<Action>, c: Config)
    requires IsRun(tickEnabled, acts, c)
    ensures Parked(c.state.pc) && (c.state.shared.pending || c.state.shared.stop) ==>
            c.state.shared.pulse || PokeWaker in c.state.callers
  {
    RunInv(tickEnabled, acts, c);
  }

  /** No lost trigger: `pending` is set exactly while some mark has no sweep started after it. */
  lemma NoLostTrigger(tickEnabled: bool, acts: seq<Action>, c: Config)
    requires IsRun(tickEnabled, acts, c)
    ensures c.state.shared.pending <==>
            exists i :: 0 <= i < |c.log| && c.log[i].Marked? && NoStartBetween(c.log, i, |c.log|)
  {
    RunInv(tickEnabled, acts, c);
    MarksSinceStartIsLatest(c.log);
  }

  /** Once the task sleeps with nothing left to wake it, every mark ever made was followed by a sweep. */
  lemma AsleepMeansServed(tickEnabled: bool, acts: seq<Action>, c: Config, i: nat)
    requires IsRun(tickEnabled, acts, c) && i < |c.log|
    ensures c.state.pc.Asleep? && !c.state.shared.pulse && PokeWaker !in c.state.callers && c.log[i].Marked? ==>
            exists j :: i < j < |c.log| && c.log[j].SweepStarted?
  {
    NoLostWakeup(tickEnabled, acts, c);
    NoLostTrigger(tickEnabled, acts, c);
    if c.state.pc.Asleep? && !c.state.shared.pulse && PokeWaker !in c.state.callers && c.log[i].Marked? {
      assert !NoStartBetween(c.log, i, |c.log|);
    }
  }

  /** Coalescing: there are never more sweeps than marks, counting the one still pending. */
  lemma Coalescing(tickEnabled: bool, acts: seq<Action>, c: Config)
    requires IsRun(tickEnabled, acts, c)
    ensures CountStarts(c.log) + (if c.state.shared.pending then 1 else 0) <= CountMarks(c.log)
  {
    RunInv(tickEnabled, acts, c);
  }

  /** At most one sweep starts after a `stop` store, and the task exits only when asked to. */
  lemma StopBound(tickEnabled: bool, acts: seq<Action>, c: Config)
    requires IsRun(tickEnabled, acts, c)
    ensures forall i, j, k :: 0 <= i < j < k < |c.log| && c.log[i] == StopStored && c.log[j].SweepStarted? ==>
              !c.log[k].SweepStarted?
    ensures c.state.pc.Exited? ==> StopStored in c.log
  {
    RunInv(tickEnabled, acts, c);
    forall i, j, k | 0 <= i < j < k < |c.log| && c.log[i] == StopStored && c.log[j].SweepStarted?
      ensures !c.log[k].SweepStarted?
    {
      if c.log[k].SweepStarted? {
        StartsAfterStopCounts(c.log, i, j, k);
      }
    }
  }

  /**
   * Pause discipline: a sweep that starts while paused is owed to a foreground mark
   * made since the sweep before it, and to no other kind of mark.
   */
  lemma PauseDiscipline(tickEnabled: bool, acts: seq<Action>, c: Config, k: nat)
    requires IsRun(tickEnabled, acts, c) && k < |c.log| && c.log[k] == SweepStarted(true)
    ensures exists i :: 0 <= i < k && c.log[i] == Marked(Foreground) && NoStartBetween(c.log, i, k)
    ensures forall i :: 0 <= i < k && c.log[i].Marked? && NoStartBetween(c.log, i, k) ==> c.log[i] == Marked(Foreground)
  {
    assert Read(c.log).justified by { RunInv(tickEnabled, acts, c); }
    OnlyForegroundBefore(c.log, k);
  }

  // ----- The pause and the sweep that caused it --------------------------------

  predicate OfSweep(o: Obs) {
    o.SweepStarted? || o.SweepReturned? || o.PauseSet?
  }

  /** The latest thing a sweep did was to return Unauthenticated, and the pause is not stored yet. */
  predicate PauseOwed(log: seq<Obs>) {
    log != [] &&
    match log[|log| - 1]
    case SweepReturned(o) => o == SweepUnauthenticated
    case SweepStarted(_) => false
    case PauseSet => false
    case _ => PauseOwed(log[..|log| - 1])
  }

  predicate Storing(pc: Pc) {
    pc == CountSweep(SweepUnauthenticated) || pc == Settle(SweepUnauthenticated)
  }

  /** What follows an Unauthenticated return is its pause, and no pause follows anything else. */
  predicate Paired(log: seq<Obs>) {
    forall i :: 0 <= i < |log| && OfSweep(log[i]) ==> (log[i].PauseSet? <==> PauseOwed(log[..i]))
  }

  predicate PairInv(pc: Pc, log: seq<Obs>) {
    Paired(log) && (Storing(pc) <==> PauseOwed(log))
  }

  lemma PairLogged(log: seq<Obs>, o: Option<Obs>)
    requires Paired(log) && (o.Some? && OfSweep(o.value) ==> (o.value.PauseSet? <==> PauseOwed(log)))
    ensures Paired(Logged(log, o))
    ensures PauseOwed(Logged(log, o)) <==>
            if o.Some? && OfSweep(o.value) then o.value == SweepReturned(SweepUnauthenticated) else PauseOwed(log)
  {
    var log' := Logged(log, o);
    assert o.Some? ==> log'[..|log'| - 1] == log;
    assert forall i :: 0 <= i <= |log| ==> log'[..i] == log[..i];
  }

  lemma PairShared(sh: Shared, pc: Pc, outcome: Outcome, log: seq<Obs>)
    requires PairInv(pc, log) && !Queueing(pc)
    ensures PairInv(SharedStep(sh, pc, outcome).1, Logged(log, TaskEmits(sh, pc, outcome)))
  {
    PairLogged(log, TaskEmits(sh, pc, outcome));
  }

  lemma PairStep(c: Config, a: Action)
    requires PairInv(c.state.pc, c.log) && Enabled(c.state, a)
    ensures PairInv(Step(c, a).state.pc, Step(c, a).log)
  {
    match a
    case TaskStep(outcome, keepLag) =>
      if Queueing(c.state.pc) {
        QueueStep(c.state, outcome, keepLag);
      } else {
        PairShared(c.state.shared, c.state.pc, outcome, c.log);
      }
    case CallerStep(at) => PairLogged(c.log, CallerEmits(at));
    case _ =>
  }

  lemma {:induction false} PairRun(tickEnabled: bool, acts: seq<Action>, c: Config)
    requires IsRun(tickEnabled, acts, c)
    ensures PairInv(c.state.pc, c.log)
  {
    if acts != [] {
      var before := RunFrom(Init(tickEnabled), acts[..|acts| - 1]).value;
      PairRun(tickEnabled, acts[..|acts| - 1], before);
      PairStep(before, acts[|acts| - 1]);
    }
  }

  predicate UnauthenticatedLast(log: seq<Obs>, r: int) {
    0 <= r < |log| && log[r] == SweepReturned(SweepUnauthenticated) && forall j :: r < j < |log| ==> !OfSweep(log[j])
  }

  lemma {:induction false} PauseOwedIff(log: seq<Obs>)
    ensures PauseOwed(log) <==> exists r :: 0 <= r < |log| && UnauthenticatedLast(log, r)
  {
    if log != [] {
      var front := log[..|log| - 1];
      PauseOwedIff(front);
      if OfSweep(log[|log| - 1]) {
        assert PauseOwed(log) ==> UnauthenticatedLast(log, |log| - 1);
      } else {
        assert forall r :: 0 <= r < |front| ==> (UnauthenticatedLast(front, r) <==> UnauthenticatedLast(log, r));
      }
    }
  }

  /** The pause at `i` is the one that the Unauthenticated return at `r` led to. */
  predicate PausedBy(log: seq<Obs>, r: int, i: int) {
    0 <= r < i < |log| && log[i] == PauseSet && UnauthenticatedLast(log[..i], r)
  }

  /**
   * The driver is paused exactly when some sweep returned Unauthenticated, its pause
   * was stored, and no foreground call has cleared it since that store.  Between the
   * return and the store, and only then, the task stands at one of two points; a
   * clear that lands there is lost.
   */
  lemma PausedExactly(tickEnabled: bool, acts: seq<Action>, c: Config)
    requires IsRun(tickEnabled, acts, c)
    ensures c.state.shared.paused <==>
            exists r, i :: 0 <= r < i < |c.log| && PausedBy(c.log, r, i)
              && forall j :: i < j < |c.log| ==> c.log[j] != PauseCleared
    ensures Storing(c.state.pc) <==> exists r :: 0 <= r < |c.log| && UnauthenticatedLast(c.log, r)
  {
    RunInv(tickEnabled, acts, c);
    PairRun(tickEnabled, acts, c);
    PauseOwedIff(c.log);
    LastPauseWrite(c.log);
    if c.state.shared.paused {
      var i :| 0 <= i < |c.log| && c.log[i] == PauseSet && forall j :: i < j < |c.log| ==> c.log[j] != PauseCleared;
      PauseOwedIff(c.log[..i]);
      var r :| 0 <= r < i && UnauthenticatedLast(c.log[..i], r);
      assert PausedBy(c.log, r, i);
    }
  }
}
