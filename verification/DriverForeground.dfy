/**
 * What becomes of a foreground edge.  `notify_foreground()` clears `paused` and then
 * marks a trigger; a sweep that returns Unauthenticated can store `paused` again
 * before the sweep that the call asked for.
 */
module DriverForeground {
  import opened Wrappers
  import opened RealtimeEvents
  import opened DriverTask
  import opened DriverTaskSafety
  import opened DriverTaskProgress
  import opened DriverBursts

  // ----- When the next sweep starts unpaused -----------------------------------

  /** A sweep is under way that may still set `paused`: its outcome is open, or known and not yet stored. */
  predicate MayPause(pc: Pc) {
    pc.Sweeping? || Storing(pc)
  }

  /** The next sweep, if one can start at all, starts unpaused. */
  predicate Safe(sh: Shared, pc: Pc) {
    !CanSweep(sh, pc) || (!sh.paused && !MayPause(pc))
  }

  predicate FirstStart(log: seq<Obs>, from: nat, j: nat) {
    from <= j < |log| && log[j].SweepStarted? && forall i :: from <= i < j ==> !log[i].SweepStarted?
  }

  predicate NextStartUnpaused(from: nat, log: seq<Obs>) {
    forall j :: from <= j < |log| && FirstStart(log, from, j) ==> log[j] == SweepStarted(false)
  }

  /** However the run goes on, the next sweep to start starts unpaused. */
  ghost predicate AlwaysUnpaused(c: Config) {
    forall acts :: RunFrom(c, acts).Some? ==> NextStartUnpaused(|c.log|, RunFrom(c, acts).value.log)
  }

  /** Receiving and polling do not lead to a sweep, nor from beyond the load of `stop` back before it. */
  lemma QueuePc(s: State, o: Outcome, keepLag: bool)
    requires Queueing(s.pc)
    ensures var pc' := TaskApply(s, o, keepLag).pc;
      !MayPause(pc') && !pc'.Exited? && (Committed(pc') ==> s.pc.Drain?)
  {
  }

  lemma SafeQueueStep(s: State, o: Outcome, keepLag: bool)
    requires Queueing(s.pc) && Safe(s.shared, s.pc)
    ensures var s' := TaskApply(s, o, keepLag); Safe(s'.shared, s'.pc)
  {
    QueueStep(s, o, keepLag);
    QueuePc(s, o, keepLag);
  }

  lemma SafeSharedStep(sh: Shared, pc: Pc, o: Outcome)
    requires !Queueing(pc) && !pc.ClearPending? && Safe(sh, pc)
    ensures var (sh', pc') := SharedStep(sh, pc, o); Safe(sh', pc')
  {
  }

  lemma SafeCallerStep(sh: Shared, pc: Pc, at: CallerPc)
    requires Safe(sh, pc)
    ensures Safe(CallerStore(sh, at), pc)
  {
  }

  lemma SafeStep(s: State, a: Action)
    requires Safe(s.shared, s.pc) && Enabled(s, a)
    ensures match Emits(s, a)
      case Some(SweepStarted(whilePaused)) => !whilePaused
      case _ => Safe(Apply(s, a).shared, Apply(s, a).pc)
  {
    match a
    case TaskStep(o, keepLag) =>
      if Queueing(s.pc) {
        SafeQueueStep(s, o, keepLag);
      } else if !s.pc.ClearPending? {
        SafeSharedStep(s.shared, s.pc, o);
      }
    case CallerStep(at) =>
      SafeCallerStep(s.shared, s.pc, at);
    case _ =>
  }

  lemma {:induction false} SafeRun(c: Config, acts: seq<Action>, c': Config)
    requires Safe(c.state.shared, c.state.pc) && RunFrom(c, acts) == Some(c')
    ensures NextStartUnpaused(|c.log|, c'.log)
    ensures NoneStarted(c.log, c'.log) ==> Safe(c'.state.shared, c'.state.pc)
  {
    if acts != [] {
      var before, a := RunFrom(c, acts[..|acts| - 1]).value, acts[|acts| - 1];
      LogGrowsByRun(c, acts[..|acts| - 1], before);
      SafeRun(c, acts[..|acts| - 1], before);
      assert c'.log == Logged(before.log, Emits(before.state, a));
      if NoneStarted(c.log, before.log) {
        SafeStep(before.state, a);
        OneMoreObs(c.log, before.log, Emits(before.state, a));
      } else {
        StartDecides(c.log, before.log, c'.log);
      }
    }
  }

  lemma OneMoreObs(log0: seq<Obs>, log: seq<Obs>, o: Option<Obs>)
    requires NoneStarted(log0, log) && o != Some(SweepStarted(true))
    ensures NextStartUnpaused(|log0|, Logged(log, o))
    ensures o.None? || !o.value.SweepStarted? ==> NoneStarted(log0, Logged(log, o))
    ensures o == Some(SweepStarted(false)) ==> !NoneStarted(log0, Logged(log, o))
  {
    var log' := Logged(log, o);
    assert forall j :: 0 <= j < |log| ==> log'[j] == log[j];
    assert o.Some? ==> log'[|log|] == o.value;
  }

  /** Once the first start is logged, nothing logged later matters. */
  lemma StartDecides(log0: seq<Obs>, log: seq<Obs>, log': seq<Obs>)
    requires log0 <= log <= log' && !NoneStarted(log0, log) && NextStartUnpaused(|log0|, log)
    ensures NextStartUnpaused(|log0|, log') && !NoneStarted(log0, log')
  {
    var k :| |log0| <= k < |log| && log[k].SweepStarted?;
    assert log'[k] == log[k];
    forall j | |log0| <= j < |log'| && FirstStart(log', |log0|, j)
      ensures log'[j] == SweepStarted(false)
    {
      assert j <= k;
      assert forall i :: 0 <= i <= j ==> log'[i] == log[i];
      assert FirstStart(log, |log0|, j);
    }
  }

  /** A safe state stays safe to the next start, in every interleaving. */
  lemma SafeIsKept(c: Config)
    requires Safe(c.state.shared, c.state.pc)
    ensures AlwaysUnpaused(c)
  {
    forall acts | RunFrom(c, acts).Some?
      ensures NextStartUnpaused(|c.log|, RunFrom(c, acts).value.log)
    {
      SafeRun(c, acts, RunFrom(c, acts).value);
    }
  }

  // ----- How an edge is overwritten --------------------------------------------

  lemma CallerMoves(c0: Config, acts: seq<Action>, c: Config, at: CallerPc) returns (acts': seq<Action>, c': Config)
    requires RunFrom(c0, acts) == Some(c) && at in c.state.callers
    ensures RunFrom(c0, acts') == Some(c')
    ensures c'.log == Logged(c.log, CallerEmits(at)) && c'.state.pc == c.state.pc && c'.state.rx == c.state.rx
    ensures c'.state.shared == CallerStore(c.state.shared, at) && CallerNext(at) <= c'.state.callers
  {
    RunExtends(c0, acts, c, CallerStep(at));
    acts', c' := acts + [CallerStep(at)], Step(c, CallerStep(at));
  }

  lemma NearerToPause(sh: Shared, pc: Pc)
    requires MayPause(pc)
    ensures var (sh', pc') := SharedStep(sh, pc, SweepUnauthenticated);
      Sub(pc') < Sub(pc) && sh'.pending == sh.pending && (MayPause(pc') || (pc'.CoalesceCheck? && sh'.paused))
  {
  }

  /** The sweep under way returns Unauthenticated, and the task stores `paused`. */
  lemma {:induction false} SweepPauses(c: Config) returns (n: nat, at: Config)
    requires MayPause(c.state.pc) || (c.state.pc.CoalesceCheck? && c.state.shared.paused)
    ensures at == Solo(c, n, SweepUnauthenticated) && at.state.pc.CoalesceCheck? && at.state.shared.paused
    ensures QuietTo(c, at) && at.state.shared.pending == c.state.shared.pending
    decreases Sub(c.state.pc)
  {
    if c.state.pc.CoalesceCheck? {
      n, at := 0, c;
    } else {
      var next := SoloStep(c, SweepUnauthenticated);
      SoloStepQuiet(c, SweepUnauthenticated);
      NearerToPause(c.state.shared, c.state.pc);
      n, at := SweepPauses(next);
      SoloFirst(c, n, SweepUnauthenticated);
      QuietOn(c, next, at);
      n := n + 1;
    }
  }

  /** From a state that is not safe, with a trigger made and its pulse owed, the next sweep can start paused. */
  lemma StartsPaused(c0: Config, acts: seq<Action>, c: Config) returns (acts': seq<Action>, c': Config)
    requires RunFrom(c0, acts) == Some(c) && NoneStarted(c0.log, c.log)
    requires !Safe(c.state.shared, c.state.pc) && c.state.shared.pending && PokeWaker in c.state.callers
    requires c.state.pc.Boot? || c.state.shared.listening
    ensures RunFrom(c0, acts') == Some(c') && !NextStartUnpaused(|c0.log|, c'.log)
  {
    var o := SweepUnauthenticated;
    var c1;
    acts', c1 := CallerMoves(c0, acts, c, PokeWaker);
    var at := c1;
    if MayPause(c1.state.pc) {
      var n;
      n, at := SweepPauses(c1);
      acts' := SoloIsRun(c0, acts', c1, n, o);
      QuietLog(c0.log, c1.log, at.log);
    }
    var n, last := SoloStartsSweep(at, o);
    acts' := SoloIsRun(c0, acts', at, n, o);
    c' := Solo(at, n, o);
    QuietLog(c0.log, at.log, last.log);
    PausedStartLogged(c0.log, last.log);
  }

  lemma QuietLog(a: seq<Obs>, b: seq<Obs>, c: seq<Obs>)
    requires NoneStarted(a, b) && NoneStarted(b, c)
    ensures NoneStarted(a, c)
  {
    assert forall j :: 0 <= j < |b| ==> b[j] == c[j];
  }

  lemma PausedStartLogged(log0: seq<Obs>, log: seq<Obs>)
    requires NoneStarted(log0, log)
    ensures !NextStartUnpaused(|log0|, log + [SweepStarted(true)])
  {
    var log' := log + [SweepStarted(true)];
    assert forall j :: 0 <= j < |log| ==> log'[j] == log[j];
    assert FirstStart(log', |log0|, |log|);
  }

  lemma NotAlways(c: Config, acts: seq<Action>, c': Config)
    requires RunFrom(c, acts) == Some(c') && !NextStartUnpaused(|c.log|, c'.log)
    ensures !AlwaysUnpaused(c)
  {
  }

  // ----- The exact conditions --------------------------------------------------

  /**
   * At the mark.  The sweep a foreground call asks for starts unpaused, however the
   * run goes on, exactly if at the mark the driver is not paused and no sweep is
   * under way that may still pause it, or no sweep can start any more.
   */
  lemma MarkKeptIff(tickEnabled: bool, acts: seq<Action>, c: Config)
    requires IsRun(tickEnabled, acts, c) && MarkForeground in c.state.callers
    ensures var marked := Step(c, CallerStep(MarkForeground));
      AlwaysUnpaused(marked) <==> Safe(marked.state.shared, marked.state.pc)
  {
    var marked := Step(c, CallerStep(MarkForeground));
    if Safe(marked.state.shared, marked.state.pc) {
      SafeIsKept(marked);
    } else {
      RunInv(tickEnabled, acts, c);
      var acts', c' := StartsPaused(marked, [], marked);
      NotAlways(marked, acts', c');
    }
  }

  /**
   * At the clear.  The next sweep after a foreground call's clearing of `paused`
   * starts unpaused, however the run goes on, exactly if no sweep is under way that
   * may still pause the driver, or `stop` is stored.
   */
  lemma ClearKeptIff(tickEnabled: bool, acts: seq<Action>, c: Config)
    requires IsRun(tickEnabled, acts, c) && ClearPaused in c.state.callers
    ensures AlwaysUnpaused(Step(c, CallerStep(ClearPaused))) <==> !MayPause(c.state.pc) || c.state.shared.stop
  {
    var cleared := Step(c, CallerStep(ClearPaused));
    if !MayPause(c.state.pc) || c.state.shared.stop {
      SafeIsKept(cleared);
    } else {
      assert c.state.pc.Boot? || c.state.shared.listening by { RunInv(tickEnabled, acts, c); }
      ClearOverwritten(cleared);
    }
  }

  lemma ClearOverwritten(cleared: Config)
    requires NoteForeground in cleared.state.callers && !cleared.state.shared.stop && MayPause(cleared.state.pc)
    requires cleared.state.pc.Boot? || cleared.state.shared.listening
    ensures !AlwaysUnpaused(cleared)
  {
    var acts, c := RestOfCall(cleared);
    assert NoneStarted(cleared.log, c.log);
    var acts', c' := StartsPaused(cleared, acts, c);
    NotAlways(cleared, acts', c');
  }

  /** The call goes on to its mark and still owes its pulse; the task has not moved. */
  lemma RestOfCall(cleared: Config) returns (acts: seq<Action>, c: Config)
    requires NoteForeground in cleared.state.callers
    ensures RunFrom(cleared, acts) == Some(c) && c.log == cleared.log + [Marked(Foreground)]
    ensures c.state.pc == cleared.state.pc && c.state.shared.pending && PokeWaker in c.state.callers
    ensures c.state.shared.stop == cleared.state.shared.stop && c.state.shared.listening == cleared.state.shared.listening
  {
    acts, c := CallerMoves(cleared, [], cleared, NoteForeground);
    assert MarkForeground in c.state.callers;
    acts, c := CallerMoves(cleared, acts, c, MarkForeground);
  }

  /**
   * The whole edge.  If no sweep that may pause the driver is under way at the clear,
   * and none starts before the mark, the sweep the call asked for starts unpaused.
   */
  lemma EdgeKept(c: Config, acts: seq<Action>, c': Config)
    requires ClearPaused in c.state.callers && !MayPause(c.state.pc)
    requires RunFrom(Step(c, CallerStep(ClearPaused)), acts) == Some(c') && MarkForeground in c'.state.callers
    requires NoneStarted(c.log, c'.log)
    ensures AlwaysUnpaused(Step(c', CallerStep(MarkForeground)))
  {
    var cleared := Step(c, CallerStep(ClearPaused));
    LogGrowsByRun(cleared, acts, c');
    assert cleared.log == c.log + [PauseCleared];
    SafeRun(cleared, acts, c');
    SafeIsKept(Step(c', CallerStep(MarkForeground)));
  }

  // ----- Runs on which it is overwritten ---------------------------------------

  /**
   * Without a sweep at the clear.  A trigger is pending and the task is about to look
   * at it: the clear, a sweep that starts unpaused and returns Unauthenticated, and
   * only then the mark.  The sweep the call asked for can start paused.
   */
  lemma ClearedTooEarly(c0: Config, acts: seq<Action>, c: Config) returns (acts': seq<Action>, c': Config)
    requires RunFrom(c0, acts) == Some(c) && c.state.pc == PendingCheck && c.state.shared.pending
    requires ClearPaused in c.state.callers
    ensures RunFrom(c0, acts') == Some(c') && MarkForeground in c'.state.callers
    ensures c'.log == c.log + [PauseCleared, SweepStarted(false), SweepReturned(SweepUnauthenticated), PauseSet]
    ensures c'.state.pc == CoalesceCheck && c'.state.shared.paused && c'.state.shared.stop == c.state.shared.stop
  {
    var o, c1 := SweepUnauthenticated, c;
    acts', c1 := CallerMoves(c0, acts, c, ClearPaused);
    acts', c1 := SweepFails(c0, acts', c1);
    acts', c' := CallerMoves(c0, acts', c1, NoteForeground);
  }

  /** From the look at `pending` through a sweep that returns Unauthenticated. */
  lemma SweepFails(c0: Config, acts: seq<Action>, c: Config) returns (acts': seq<Action>, c': Config)
    requires RunFrom(c0, acts) == Some(c) && c.state.pc == PendingCheck && c.state.shared.pending
    ensures RunFrom(c0, acts') == Some(c')
    ensures c'.log == c.log + SweepLog(c.state.shared.paused, SweepUnauthenticated)
    ensures c'.state == c.state.(shared := Swept(c.state.shared, SweepUnauthenticated), pc := CoalesceCheck)
  {
    var o := SweepUnauthenticated;
    SoloOne(c, o);
    acts' := SoloIsRun(c0, acts, c, 1, o);
    var c1 := SoloStep(c, o);
    assert c1 == c.(state := c.state.(pc := ClearPending));
    var n := SoloSweep(c1, o);
    acts' := SoloIsRun(c0, acts', c1, n, o);
    c' := Solo(c1, n, o);
  }

  /** It happens: on a run from the start, an edge that met no sweep loses the sweep it asks for. */
  lemma EdgeLostWithoutSweep(tickEnabled: bool) returns (acts: seq<Action>, c: Config)
    ensures IsRun(tickEnabled, acts, c) && MarkForeground in c.state.callers
    ensures !AlwaysUnpaused(Step(c, CallerStep(MarkForeground)))
    ensures c.log == [Marked(InitialStart), PauseCleared, SweepStarted(false),
                      SweepReturned(SweepUnauthenticated), PauseSet]
  {
    acts, c := CalledBeforeFirstSweep(tickEnabled);
    acts, c := ClearedTooEarly(Init(tickEnabled), acts, c);
    MarkKeptIff(tickEnabled, acts, c);
  }

  /** A foreground call arrives when the task is about to find its initial trigger. */
  lemma CalledBeforeFirstSweep(tickEnabled: bool) returns (acts: seq<Action>, c: Config)
    ensures IsRun(tickEnabled, acts, c) && c.log == [Marked(InitialStart)]
    ensures c.state.pc == PendingCheck && c.state.shared.pending && !c.state.shared.stop
    ensures c.state.callers == multiset{ClearPaused}
  {
    var c0 := Init(tickEnabled);
    var c1 := SoloStep(c0, SweepOk);
    SoloOne(c0, SweepOk);
    var c3 := EmptyDrain(c1, SweepOk);
    SoloPlus(c0, 1, 2, SweepOk);
    acts := SoloIsRun(c0, [], c0, 3, SweepOk);
    RunExtends(c0, acts, c3, CallNotify);
    acts, c := acts + [CallNotify], Step(c3, CallNotify);
  }

  // ----- A whole edge during a sweep -------------------------------------------

  lemma CallerAlone(c: Config, at: CallerPc)
    requires c.state.callers == multiset{at}
    ensures Step(c, CallerStep(at)) ==
            Config(c.state.(shared := CallerStore(c.state.shared, at), callers := CallerNext(at)),
                   Logged(c.log, CallerEmits(at)))
  {
    assert c.state.callers - multiset{at} + CallerNext(at) == CallerNext(at);
  }

  /** A call that nobody interrupts runs to its end. */
  lemma {:induction false} CallAlone(c0: Config, acts: seq<Action>, c: Config, at: CallerPc)
    returns (acts': seq<Action>, c': Config)
    requires RunFrom(c0, acts) == Some(c) && c.state.callers == multiset{at}
    ensures RunFrom(c0, acts') == Some(c')
    ensures c'.state == c.state.(shared := CallShared(c.state.shared, at), callers := multiset{})
    ensures c'.log == c.log + CallLog(at)
    decreases at == ClearPaused, at == NoteForeground, at != PokeWaker
  {
    RunExtends(c0, acts, c, CallerStep(at));
    CallerAlone(c, at);
    acts', c' := acts + [CallerStep(at)], Step(c, CallerStep(at));
    if at == PokeWaker {
      assert c.log + CallLog(at) == c.log;
    } else {
      var next :| next in CallerNext(at);
      var c1 := c';
      acts', c' := CallAlone(c0, acts', c1, next);
      assert c1.log + CallLog(next) == c.log + CallLog(at);
    }
  }

  /** A whole `notify_foreground()` with no other call in progress. */
  lemma NotifyAlone(c0: Config, acts: seq<Action>, c: Config) returns (acts': seq<Action>, c': Config)
    requires RunFrom(c0, acts) == Some(c) && c.state.callers == multiset{}
    ensures RunFrom(c0, acts') == Some(c')
    ensures c'.state == c.state.(shared := CallShared(c.state.shared, ClearPaused))
    ensures var sh, sh' := c.state.shared, c'.state.shared;
      && !sh'.paused && sh'.pending && sh'.stop == sh.stop && sh'.reasons == sh.reasons + {Foreground}
      && (sh'.pulse <==> sh.pulse || sh.listening)
    ensures c'.log == c.log + [PauseCleared, Marked(Foreground)]
  {
    RunExtends(c0, acts, c, CallNotify);
    var c1 := Step(c, CallNotify);
    assert c1.state == c.state.(callers := multiset{ClearPaused}) && c1.log == c.log;
    acts', c' := CallAlone(c0, acts + [CallNotify], c1, ClearPaused);
  }

  /** A whole `stop()` with no other call in progress. */
  lemma StopAlone(c0: Config, acts: seq<Action>, c: Config) returns (acts': seq<Action>, c': Config)
    requires RunFrom(c0, acts) == Some(c) && c.state.callers == multiset{}
    ensures RunFrom(c0, acts') == Some(c') && c'.log == c.log + [StopStored]
    ensures c'.state ==
            c.state.(shared := c.state.shared.(stop := true, pulse := c.state.shared.pulse || c.state.shared.listening))
  {
    RunExtends(c0, acts, c, CallStop);
    var c1 := Step(c, CallStop);
    assert c1.state == c.state.(callers := multiset{StoreStop}) && c1.log == c.log;
    acts', c' := CallAlone(c0, acts + [CallStop], c1, StoreStop);
  }

  function Unauthenticated(sh: Shared): Shared {
    sh.(sweepCount := sh.sweepCount + 1, paused := true)
  }

  lemma UnauthenticatedReturns(c: Config) returns (n: nat)
    requires c.state.pc == Sweeping
    ensures Solo(c, n, SweepUnauthenticated) ==
            Config(c.state.(shared := Unauthenticated(c.state.shared), pc := CoalesceCheck),
                   c.log + [SweepReturned(SweepUnauthenticated), PauseSet])
  {
    var o := SweepUnauthenticated;
    SoloOne(c, o);
    SoloTwo(SoloStep(c, o), o);
    SweepSecondHalf(SoloStep(c, o), o);
    SoloPlus(c, 1, 2, o);
    n := 3;
  }

  /** A `notify_foreground()` that completes during a sweep which then returns Unauthenticated. */
  lemma EdgeThenUnauthenticated(c0: Config, acts: seq<Action>, c: Config) returns (acts': seq<Action>, c': Config)
    requires RunFrom(c0, acts) == Some(c)
    requires c.state.pc == Sweeping && c.state.callers == multiset{}
    ensures RunFrom(c0, acts') == Some(c')
    ensures c'.state == c.state.(shared := Unauthenticated(CallShared(c.state.shared, ClearPaused)), pc := CoalesceCheck)
    ensures c'.log == c.log + [PauseCleared, Marked(Foreground), SweepReturned(SweepUnauthenticated), PauseSet]
  {
    var c1;
    acts', c1 := NotifyAlone(c0, acts, c);
    var n := UnauthenticatedReturns(c1);
    acts' := SoloIsRun(c0, acts', c1, n, SweepUnauthenticated);
    c' := Solo(c1, n, SweepUnauthenticated);
  }

  lemma RerunBegins(c: Config, o: Outcome) returns (n: nat)
    requires c.state.pc == CoalesceCheck && c.state.shared.pending && !c.state.shared.stop
    requires c.state.rx.events == [] && !c.state.rx.lagged
    ensures Solo(c, n, o) ==
            c.(state := c.state.(shared := c.state.shared.(reasons := c.state.shared.reasons + {Coalesced}),
                                 pc := ClearPending))
  {
    var mid := RerunNoted(c, o);
    var late := EmptyDrain(mid, o);
    SoloPlus(c, 2, 2, o);
    SoloOne(late, o);
    SoloPlus(c, 4, 1, o);
    n := 5;
  }

  lemma RerunNoted(c: Config, o: Outcome) returns (mid: Config)
    requires c.state.pc == CoalesceCheck && c.state.shared.pending
    ensures mid == Solo(c, 2, o)
    ensures mid == c.(state := c.state.(shared := c.state.shared.(reasons := c.state.shared.reasons + {Coalesced}),
                                        pc := LoopCheck))
  {
    SoloTwo(c, o);
    mid := SoloStep(SoloStep(c, o), o);
  }

  /** From the loop's head past an empty queue. */
  lemma EmptyDrain(c: Config, o: Outcome) returns (late: Config)
    requires c.state.pc == LoopCheck && !c.state.shared.stop && c.state.rx.events == [] && !c.state.rx.lagged
    ensures late == Solo(c, 2, o) && late == c.(state := c.state.(pc := PendingCheck))
  {
    SoloTwo(c, o);
    late := SoloStep(SoloStep(c, o), o);
  }

  /**
   * A foreground edge can be overwritten.  Whenever the task is sweeping with nothing
   * queued, a `notify_foreground()` may complete before the sweep returns
   * Unauthenticated; the re-run it asked for then starts paused, and although it
   * succeeds the driver stays paused, deaf to `Connected`, row events and the tick.
   */
  lemma ForegroundEdgeOverwritten(c0: Config, acts: seq<Action>, c: Config) returns (acts': seq<Action>, c': Config)
    requires RunFrom(c0, acts) == Some(c)
    requires c.state.pc == Sweeping && c.state.callers == multiset{}
    requires !c.state.shared.stop && c.state.rx.events == [] && !c.state.rx.lagged
    ensures RunFrom(c0, acts') == Some(c')
    ensures c'.log == c.log + [PauseCleared, Marked(Foreground), SweepReturned(SweepUnauthenticated), PauseSet,
                               SweepStarted(true), SweepReturned(SweepOk)]
    ensures c'.state.shared.paused && !c'.state.shared.pending && c'.state.callers == multiset{}
  {
    var c1;
    acts', c1 := EdgeThenUnauthenticated(c0, acts, c);
    var n := RerunBegins(c1, SweepOk);
    acts' := SoloIsRun(c0, acts', c1, n, SweepOk);
    var c2 := Solo(c1, n, SweepOk);
    n := SoloSweep(c2, SweepOk);
    acts' := SoloIsRun(c0, acts', c2, n, SweepOk);
    c' := Solo(c2, n, SweepOk);
  }

  /** The first sweep of a driver that nobody disturbs. */
  lemma FirstSweep(tickEnabled: bool) returns (acts: seq<Action>, c: Config)
    ensures IsRun(tickEnabled, acts, c)
    ensures c.state.pc == Sweeping && c.state.callers == multiset{}
    ensures !c.state.shared.stop && c.state.rx.events == [] && !c.state.rx.lagged
  {
    var c0 := Init(tickEnabled);
    var c1 := SoloStep(c0, SweepOk);
    SoloOne(c0, SweepOk);
    var c3 := EmptyDrain(c1, SweepOk);
    SoloPlus(c0, 1, 2, SweepOk);
    acts := SoloIsRun(c0, [], c0, 3, SweepOk);
    acts, c := SweepBegins(c0, acts, c3);
  }

  lemma SweepBegins(c0: Config, acts: seq<Action>, c: Config) returns (acts': seq<Action>, c': Config)
    requires RunFrom(c0, acts) == Some(c) && c.state.pc == PendingCheck && c.state.shared.pending
    ensures RunFrom(c0, acts') == Some(c')
    ensures c'.state == c.state.(shared := c.state.shared.(pending := false), pc := Sweeping)
  {
    SoloTwo(c, SweepOk);
    acts' := SoloIsRun(c0, acts, c, 2, SweepOk);
    c' := SoloStep(SoloStep(c, SweepOk), SweepOk);
  }

  /** The overwritten edge happens on an actual run. */
  lemma PausedAfterSuccess(tickEnabled: bool) returns (acts: seq<Action>, c: Config)
    ensures IsRun(tickEnabled, acts, c)
    ensures c.state.shared.paused && !c.state.shared.pending
    ensures |c.log| >= 2 && c.log[|c.log| - 2..] == [SweepStarted(true), SweepReturned(SweepOk)]
  {
    acts, c := FirstSweep(tickEnabled);
    acts, c := ForegroundEdgeOverwritten(Init(tickEnabled), acts, c);
  }
}
