/**
 * What the trigger task does when it runs alone: a pending trigger gets its sweep,
 * `stop` ends the task, a burst of events costs one sweep, and a closed realtime
 * broadcast silences the fallback tick for good.
 */
module DriverTaskProgress {
  import opened Wrappers
  import opened RealtimeEvents
  import opened DriverTask
  import opened DriverTaskSafety

  function SoloStep(c: Config, o: Outcome): Config {
    if c.state.pc.Exited? then c else Step(c, TaskStep(o, false))
  }

  /** `n` steps of the task with nobody else moving; every sweep returns `o`. */
  function Solo(c: Config, n: nat, o: Outcome): Config
    decreases n
  {
    if n == 0 then c else Solo(SoloStep(c, o), n - 1, o)
  }

  lemma {:induction false} SoloPlus(c: Config, m: nat, n: nat, o: Outcome)
    ensures Solo(Solo(c, m, o), n, o) == Solo(c, m + n, o)
    decreases m
  {
    if m > 0 {
      SoloPlus(SoloStep(c, o), m - 1, n, o);
    }
  }

  /** Running alone is one of the interleavings. */
  lemma {:induction false} SoloIsRun(c0: Config, acts: seq<Action>, c: Config, n: nat, o: Outcome)
    returns (acts': seq<Action>)
    requires RunFrom(c0, acts) == Some(c)
    ensures RunFrom(c0, acts') == Some(Solo(c, n, o))
    decreases n
  {
    if n == 0 || c.state.pc.Exited? {
      acts' := acts;
      SoloExited(c, n, o);
    } else {
      RunExtends(c0, acts, c, TaskStep(o, false));
      acts' := SoloIsRun(c0, acts + [TaskStep(o, false)], SoloStep(c, o), n - 1, o);
    }
  }

  lemma RunExtends(c0: Config, acts: seq<Action>, c: Config, a: Action)
    requires RunFrom(c0, acts) == Some(c) && Enabled(c.state, a)
    ensures RunFrom(c0, acts + [a]) == Some(Step(c, a))
  {
    var next := acts + [a];
    assert next[..|next| - 1] == acts;
  }

  lemma {:induction false} SoloExited(c: Config, n: nat, o: Outcome)
    ensures n == 0 || c.state.pc.Exited? ==> Solo(c, n, o) == c
  {
    if n > 0 && c.state.pc.Exited? {
      SoloExited(c, n - 1, o);
    }
  }

  // ----- Distance to the next sweep, or to the exit ----------------------------

  /** How far the task is within a mark or a sweep. */
  function Sub(pc: Pc): (n: nat)
    ensures n <= 5
  {
    match pc
    case PausedCheck(_, _) => 4
    case NoteReason(_, _) => 3
    case StorePending(_, _) => 2
    case Poke(_) => 1
    case Sweeping => 5
    case CountSweep(_) => 4
    case Settle(_) => 3
    case CoalesceCheck => 2
    case NoteCoalesced => 1
    case _ => 0
  }

  function MarkReturn(pc: Pc): Option<Return> {
    match pc
    case PausedCheck(_, ret) => Some(ret)
    case NoteReason(_, ret) => Some(ret)
    case StorePending(_, ret) => Some(ret)
    case Poke(ret) => Some(ret)
    case _ => None
  }

  datatype Goal = ToSweep | ToExit

  /** How many stretches of the loop lie between here and the next sweep, or the exit. */
  function Stage(pc: Pc, goal: Goal): (n: nat)
    ensures n <= 12
  {
    match pc
    case PollEvents => 9
    case PollTick => 8
    case Asleep => 7
    case PollWaker => 6
    case Boot => 5
    case LoopCheck => 4
    case PendingCheck => if goal == ToSweep then 2 else 11
    case ClearPending => if goal == ToSweep then 1 else 10
    case Exited => 0
    case _ => if InSweep(pc) || MarkReturn(pc) == Some(ToLoop) then 5 else if goal == ToSweep then 3 else 12
  }

  function Backlog(rx: Receiver): nat {
    2 * |rx.events| + if rx.lagged then 1 else 0
  }

  function PcDistance(pc: Pc, goal: Goal): nat {
    6 * Stage(pc, goal) + Sub(pc)
  }

  /** The number of task steps that can pass before the goal is reached, given no publication. */
  function Distance(s: State, goal: Goal): (n: nat)
    ensures n <= 12 * |s.rx.events| + 83
  {
    PcDistance(s.pc, goal) + 6 * Backlog(s.rx)
  }

  /** Between the load of `stop` and the load of `pending`. */
  predicate Committed(pc: Pc) {
    pc.Drain? || pc.PendingCheck? || pc.ClearPending? || MarkReturn(pc) == Some(ToDrain)
  }

  /** A sweep can still start: nobody stored `stop`, or the task has already passed its load. */
  predicate CanSweep(sh: Shared, pc: Pc) {
    if sh.stop then Committed(pc) else !pc.Exited?
  }

  /** There is a trigger, or a `stop`, and a parked task has the pulse that wakes it. */
  predicate ReadyAt(sh: Shared, pc: Pc, goal: Goal) {
    match goal
    case ToSweep => sh.pending && CanSweep(sh, pc) && (Parked(pc) ==> sh.pulse)
    case ToExit => sh.stop && (PastStopCheck(pc) ==> sh.pulse)
  }

  predicate Ready(s: State, goal: Goal) {
    ReadyAt(s.shared, s.pc, goal)
  }

  predicate There(pc: Pc, goal: Goal) {
    if goal == ToSweep then pc.ClearPending? else pc.Exited?
  }

  lemma DrainCloser(s: State, o: Outcome, keepLag: bool, goal: Goal)
    requires s.pc.Drain? && Ready(s, goal)
    ensures var s' := TaskApply(s, o, keepLag); Distance(s', goal) < Distance(s, goal) && Ready(s', goal)
  {
    DrainMoves(s, o, keepLag);
    DrainPc(s.shared, TaskApply(s, o, keepLag).pc, goal);
  }

  lemma DrainMoves(s: State, o: Outcome, keepLag: bool)
    requires s.pc.Drain?
    ensures var s' := TaskApply(s, o, keepLag);
      && s'.shared == s.shared && Backlog(s'.rx) <= Backlog(s.rx)
      && if Backlog(s'.rx) == Backlog(s.rx) then s'.pc.PendingCheck?
         else s'.pc.Drain? || (s'.pc.PausedCheck? && s'.pc.ret == ToDrain)
  {
  }

  lemma DrainPc(sh: Shared, pc: Pc, goal: Goal)
    requires ReadyAt(sh, Drain, goal) && (pc.PendingCheck? || pc.Drain? || (pc.PausedCheck? && pc.ret == ToDrain))
    ensures ReadyAt(sh, pc, goal)
    ensures PcDistance(pc, goal) < PcDistance(Drain, goal) + 6
    ensures pc.PendingCheck? ==> PcDistance(pc, goal) < PcDistance(Drain, goal)
  {
  }

  lemma PollCloser(s: State, o: Outcome, keepLag: bool, goal: Goal)
    requires (s.pc.PollEvents? || s.pc.PollTick?) && Ready(s, goal)
    ensures var s' := TaskApply(s, o, keepLag); Distance(s', goal) < Distance(s, goal) && Ready(s', goal)
  {
  }

  lemma SharedCloser(sh: Shared, pc: Pc, o: Outcome, goal: Goal)
    requires !Queueing(pc) && ReadyAt(sh, pc, goal) && !There(pc, goal)
    ensures var (sh', pc') := SharedStep(sh, pc, o);
      PcDistance(pc', goal) < PcDistance(pc, goal) && ReadyAt(sh', pc', goal)
  {
  }

  lemma TaskCloser(s: State, o: Outcome, keepLag: bool, goal: Goal)
    requires Ready(s, goal) && !There(s.pc, goal)
    ensures !s.pc.Exited?
    ensures var s' := TaskApply(s, o, keepLag); Distance(s', goal) < Distance(s, goal) && Ready(s', goal)
  {
    if s.pc.Drain? {
      DrainCloser(s, o, keepLag, goal);
    } else if Queueing(s.pc) {
      PollCloser(s, o, keepLag, goal);
    } else {
      SharedCloser(s.shared, s.pc, o, goal);
    }
  }

  /** The calls, the timer and the end of the broadcast do not move the task away. */
  lemma OthersKeepDistance(s: State, a: Action, goal: Goal)
    requires Ready(s, goal) && Enabled(s, a) && !a.TaskStep? && !a.Publish?
    requires goal == ToSweep ==> !Apply(s, a).shared.stop
    ensures Distance(Apply(s, a), goal) == Distance(s, goal) && Ready(Apply(s, a), goal)
  {
    if a.CallerStep? {
      CallerKeepsReady(s.shared, s.pc, a.at, goal);
    }
  }

  lemma CallerKeepsReady(sh: Shared, pc: Pc, at: CallerPc, goal: Goal)
    requires ReadyAt(sh, pc, goal) && (goal == ToSweep ==> !CallerStore(sh, at).stop)
    ensures ReadyAt(CallerStore(sh, at), pc, goal)
  {
  }

  // ----- Progress in every interleaving ----------------------------------------

  function TaskSteps(acts: seq<Action>): nat {
    if acts == [] then 0
    else TaskSteps(acts[..|acts| - 1]) + if acts[|acts| - 1].TaskStep? then 1 else 0
  }

  predicate NoneStarted(log: seq<Obs>, log': seq<Obs>) {
    log <= log' && forall j :: |log| <= j < |log'| ==> !log'[j].SweepStarted?
  }

  /** No step of the task withdraws `stop` or clears `paused`. */
  lemma SharedKeepsFlags(sh: Shared, pc: Pc, o: Outcome)
    ensures var sh' := SharedStep(sh, pc, o).0; sh'.stop == sh.stop && (sh.paused ==> sh'.paused)
  {
  }

  lemma TaskKeepsFlags(s: State, o: Outcome, keepLag: bool)
    ensures var s' := TaskApply(s, o, keepLag);
      s'.shared.stop == s.shared.stop && (s.shared.paused ==> s'.shared.paused) && s'.callers == s.callers
  {
    if Queueing(s.pc) {
      QueueStep(s, o, keepLag);
    } else {
      SharedKeepsFlags(s.shared, s.pc, o);
    }
  }

  lemma StopStays(s: State, a: Action)
    requires Enabled(s, a)
    ensures s.shared.stop ==> Apply(s, a).shared.stop
  {
    if a.TaskStep? {
      TaskKeepsFlags(s, a.outcome, a.keepLag);
    }
  }

  lemma {:induction false} Nearer(c: Config, acts: seq<Action>, c': Config, goal: Goal)
    requires RunFrom(c, acts) == Some(c') && Ready(c.state, goal)
    requires forall a <- acts :: !a.Publish?
    requires goal == ToSweep ==> !c'.state.shared.stop && NoneStarted(c.log, c'.log)
    ensures Ready(c'.state, goal) && Distance(c'.state, goal) + TaskSteps(acts) <= Distance(c.state, goal)
  {
    if acts != [] {
      var front, a := acts[..|acts| - 1], acts[|acts| - 1];
      var before := RunFrom(c, front).value;
      LogGrowsByRun(c, front, before);
      StopStays(before.state, a);
      assert c'.log == Logged(before.log, Emits(before.state, a));
      assert forall j :: 0 <= j < |before.log| ==> before.log[j] == c'.log[j];
      Nearer(c, front, before, goal);
      if a.TaskStep? {
        assert before.state.pc.ClearPending? ==> c'.log[|before.log|].SweepStarted?;
        TaskCloser(before.state, a.outcome, a.keepLag, goal);
      } else {
        OthersKeepDistance(before.state, a, goal);
      }
    }
  }

  lemma {:induction false} LogGrowsByRun(c: Config, acts: seq<Action>, c': Config)
    requires RunFrom(c, acts) == Some(c')
    ensures c.log <= c'.log
  {
    if acts != [] {
      LogGrowsByRun(c, acts[..|acts| - 1], RunFrom(c, acts[..|acts| - 1]).value);
    }
  }

  /**
   * Every trigger gets its sweep in a bounded number of the task's steps, whatever
   * the callers and the timer do in between, as long as nothing is published and
   * nobody asks to stop.  A task that is parked must have its pulse, which by
   * NoLostWakeup it has or is owed.
   */
  lemma SweptWithin(c: Config, acts: seq<Action>, c': Config)
    requires RunFrom(c, acts) == Some(c')
    requires c.state.shared.pending && !c.state.pc.Exited? && (Parked(c.state.pc) ==> c.state.shared.pulse)
    requires !c'.state.shared.stop && forall a <- acts :: !a.Publish?
    ensures TaskSteps(acts) > Distance(c.state, ToSweep) ==>
            exists j :: |c.log| <= j < |c'.log| && c'.log[j].SweepStarted?
  {
    LogGrowsByRun(c, acts, c');
    StopStaysByRun(c, acts, c');
    if NoneStarted(c.log, c'.log) {
      Nearer(c, acts, c', ToSweep);
    }
  }

  lemma {:induction false} StopStaysByRun(c: Config, acts: seq<Action>, c': Config)
    requires RunFrom(c, acts) == Some(c')
    ensures c.state.shared.stop ==> c'.state.shared.stop
  {
    if acts != [] {
      var before := RunFrom(c, acts[..|acts| - 1]).value;
      StopStaysByRun(c, acts[..|acts| - 1], before);
      StopStays(before.state, acts[|acts| - 1]);
    }
  }

  /** After `stop` and its pulse, the task takes a bounded number of steps, whatever the callers and the timer do. */
  lemma StopsWithin(c: Config, acts: seq<Action>, c': Config)
    requires RunFrom(c, acts) == Some(c')
    requires c.state.shared.stop && (PastStopCheck(c.state.pc) ==> c.state.shared.pulse)
    requires forall a <- acts :: !a.Publish?
    ensures TaskSteps(acts) <= Distance(c.state, ToExit)
    ensures TaskSteps(acts) == Distance(c.state, ToExit) ==> c'.state.pc.Exited?
  {
    Nearer(c, acts, c', ToExit);
    if !c'.state.pc.Exited? {
      TaskCloser(c'.state, SweepOk, false, ToExit);
    }
  }

  // ----- Progress of the task alone --------------------------------------------

  /** Nothing has happened but steps of the task, and no sweep has started. */
  predicate QuietTo(c: Config, at: Config) {
    && NoneStarted(c.log, at.log)
    && at.state.callers == c.state.callers && at.state.shared.stop == c.state.shared.stop
    && (c.state.shared.paused ==> at.state.shared.paused)
  }

  lemma SoloStepQuiet(c: Config, o: Outcome)
    requires !c.state.pc.ClearPending?
    ensures QuietTo(c, SoloStep(c, o))
  {
    TaskKeepsFlags(c.state, o, false);
  }

  lemma QuietOn(c: Config, mid: Config, at: Config)
    requires QuietTo(c, mid) && QuietTo(mid, at)
    ensures QuietTo(c, at)
  {
    assert forall j :: 0 <= j < |mid.log| ==> mid.log[j] == at.log[j];
  }

  lemma {:induction false} Reaches(c: Config, o: Outcome, goal: Goal) returns (n: nat, at: Config)
    requires Ready(c.state, goal)
    ensures at == Solo(c, n, o) && Ready(at.state, goal) && There(at.state.pc, goal)
    ensures goal == ToSweep ==> QuietTo(c, at)
    decreases Distance(c.state, goal)
  {
    if There(c.state.pc, goal) {
      n, at := 0, c;
    } else {
      var next := SoloStep(c, o);
      TaskCloser(c.state, o, false, goal);
      n, at := Reaches(next, o, goal);
      SoloFirst(c, n, o);
      n := n + 1;
      if goal == ToSweep {
        SoloStepQuiet(c, o);
        QuietOn(c, next, at);
      }
    }
  }

  lemma SoloFirst(c: Config, n: nat, o: Outcome)
    ensures Solo(c, n + 1, o) == Solo(SoloStep(c, o), n, o)
  {
  }

  /** In the step machine's own terms: run alone, the task starts the sweep that is due. */
  lemma SoloStartsSweep(c: Config, o: Outcome) returns (n: nat, at: Config)
    requires Ready(c.state, ToSweep)
    ensures n > 0 && Solo(c, n, o).state.pc.Sweeping? && QuietTo(c, at)
    ensures Solo(c, n, o).log == at.log + [SweepStarted(at.state.shared.paused)]
  {
    n, at := Reaches(c, o, ToSweep);
    SoloPlus(c, n, 1, o);
    assert Solo(at, 1, o) == SoloStep(at, o);
    n := n + 1;
  }

  /**
   * Whatever state the interleavings left behind, and wherever the calls in progress
   * stand, once no pulse is owed the task alone starts a sweep for a pending trigger.
   */
  lemma PendingTriggerIsSwept(tickEnabled: bool, acts: seq<Action>, c: Config, o: Outcome) returns (n: nat)
    requires IsRun(tickEnabled, acts, c)
    requires PokeWaker !in c.state.callers && c.state.shared.pending && !c.state.shared.stop
    ensures n > 0 && Solo(c, n, o).state.pc.Sweeping?
    ensures |Solo(c, n, o).log| > |c.log| && Solo(c, n, o).log[|Solo(c, n, o).log| - 1].SweepStarted?
  {
    assert Ready(c.state, ToSweep) by { RunInv(tickEnabled, acts, c); }
    var at;
    n, at := SoloStartsSweep(c, o);
  }

  /** In the same circumstances, once `stop` is stored the task alone runs to its exit. */
  lemma StopIsObeyed(tickEnabled: bool, acts: seq<Action>, c: Config, o: Outcome) returns (n: nat)
    requires IsRun(tickEnabled, acts, c)
    requires PokeWaker !in c.state.callers && c.state.shared.stop
    ensures Solo(c, n, o).state.pc.Exited?
  {
    assert Ready(c.state, ToExit) by { RunInv(tickEnabled, acts, c); }
    var at;
    n, at := Reaches(c, o, ToExit);
  }
}
