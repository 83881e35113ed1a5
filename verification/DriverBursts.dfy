/**
 * The trigger task by itself, between two moments of interference: what a burst of
 * events costs, what an overrun and a closed broadcast do to it, and how a
 * foreground edge can be overwritten.
 */
module DriverBursts {
  import opened Wrappers
  import opened RealtimeEvents
  import opened DriverTask
  import opened DriverTaskSafety
  import opened DriverTaskProgress

  lemma SoloOne(c: Config, o: Outcome)
    ensures Solo(c, 1, o) == SoloStep(c, o)
  {
    assert Solo(SoloStep(c, o), 0, o) == SoloStep(c, o);
  }

  lemma SoloTwo(c: Config, o: Outcome)
    ensures Solo(c, 2, o) == SoloStep(SoloStep(c, o), o)
  {
    SoloOne(SoloStep(c, o), o);
  }

  lemma SoloFour(c: Config, o: Outcome)
    ensures Solo(c, 4, o) == SoloStep(SoloStep(SoloStep(SoloStep(c, o), o), o), o)
  {
    SoloTwo(c, o);
    SoloTwo(SoloStep(SoloStep(c, o), o), o);
    SoloPlus(c, 2, 2, o);
  }

  /** The two halves of an unsuppressed mark. */
  lemma MarkFirstHalf(c: Config, reason: TriggerReason, ret: Return, o: Outcome)
    requires c.state.pc == PausedCheck(reason, ret) && !c.state.shared.paused
    ensures SoloStep(SoloStep(c, o), o) ==
            c.(state := c.state.(shared := c.state.shared.(reasons := c.state.shared.reasons + {reason}),
                                 pc := StorePending(reason, ret)))
  {
  }

  lemma MarkSecondHalf(c: Config, reason: TriggerReason, ret: Return, o: Outcome)
    requires c.state.pc == StorePending(reason, ret)
    ensures SoloStep(SoloStep(c, o), o) ==
            Config(c.state.(shared := Poked(c.state.shared.(pending := true)), pc := Resume(ret)),
                   c.log + [Marked(reason)])
  {
  }

  /** The load of `paused` and the three steps of a mark, taken together. */
  lemma SoloMark(c: Config, reason: TriggerReason, ret: Return, o: Outcome) returns (n: nat)
    requires c.state.pc == PausedCheck(reason, ret)
    ensures Solo(c, n, o).state == c.state.(shared := MarkUnlessPaused(c.state.shared, reason), pc := Resume(ret))
    ensures CountStarts(Solo(c, n, o).log) == CountStarts(c.log)
  {
    if c.state.shared.paused {
      SoloOne(c, o);
      n := 1;
    } else {
      MarkFirstHalf(c, reason, ret, o);
      MarkSecondHalf(SoloStep(SoloStep(c, o), o), reason, ret, o);
      ReadAppend(c.log, Marked(reason));
      SoloFour(c, o);
      n := 4;
    }
  }

  /** Draining alone is `Drained`: every queued event is handled, in order, before `pending` is looked at. */
  lemma {:induction false} SoloDrain(c: Config, o: Outcome) returns (n: nat)
    requires c.state.pc == Drain
    ensures Solo(c, n, o).state ==
            c.state.(shared := Drained(c.state.shared, c.state.rx),
                     rx := c.state.rx.(events := [], lagged := false),
                     connected := TrackAll(c.state.connected, c.state.rx.events),
                     pc := PendingCheck)
    ensures CountStarts(Solo(c, n, o).log) == CountStarts(c.log)
    decreases Backlog(c.state.rx)
  {
    var s := c.state;
    if !s.rx.lagged && s.rx.events == [] {
      SoloOne(c, o);
      n := 1;
    } else {
      var c1 := SoloStep(c, o);
      SoloOne(c, o);
      var m := 0;
      if c1.state.pc.PausedCheck? {
        m := SoloMark(c1, c1.state.pc.reason, ToDrain, o);
      }
      var c2 := Solo(c1, m, o);
      assert c2.state.pc == Drain && c2.state.rx == c1.state.rx;
      var k := SoloDrain(c2, o);
      SoloPlus(c, 1, m, o);
      SoloPlus(c, 1 + m, k, o);
      n := 1 + m + k;
    }
  }

  lemma SweepFirstHalf(c: Config, o: Outcome)
    requires c.state.pc == ClearPending
    ensures SoloStep(SoloStep(c, o), o) ==
            Config(c.state.(shared := c.state.shared.(pending := false), pc := CountSweep(o)),
                   c.log + [SweepStarted(c.state.shared.paused)] + [SweepReturned(o)])
  {
  }

  lemma SweepSecondHalf(c: Config, o: Outcome)
    requires c.state.pc == CountSweep(o)
    ensures SoloStep(SoloStep(c, o), o) ==
            Config(c.state.(shared := c.state.shared.(sweepCount := c.state.shared.sweepCount + 1,
                                                      paused := c.state.shared.paused || o == SweepUnauthenticated),
                            pc := CoalesceCheck),
                   if o == SweepUnauthenticated then c.log + [PauseSet] else c.log)
  {
  }

  function SweepLog(whilePaused: bool, o: Outcome): seq<Obs> {
    [SweepStarted(whilePaused), SweepReturned(o)] + if o == SweepUnauthenticated then [PauseSet] else []
  }

  lemma OneStartIn(log: seq<Obs>, whilePaused: bool, o: Outcome)
    ensures CountStarts(log + SweepLog(whilePaused, o)) == CountStarts(log) + 1
  {
    ReadAppend(log, SweepStarted(whilePaused));
    var two := log + [SweepStarted(whilePaused)] + [SweepReturned(o)];
    ReadAppend(log + [SweepStarted(whilePaused)], SweepReturned(o));
    ReadAppend(two, PauseSet);
    assert log + SweepLog(whilePaused, o) == if o == SweepUnauthenticated then two + [PauseSet] else two;
  }

  /** `run_one_sweep` alone is `Swept`. */
  lemma SoloSweep(c: Config, o: Outcome) returns (n: nat)
    requires c.state.pc == ClearPending
    ensures Solo(c, n, o).state == c.state.(shared := Swept(c.state.shared, o), pc := CoalesceCheck)
    ensures Solo(c, n, o).log == c.log + SweepLog(c.state.shared.paused, o)
  {
    SweepFirstHalf(c, o);
    SweepSecondHalf(SoloStep(SoloStep(c, o), o), o);
    SoloFour(c, o);
    n := 4;
  }

  lemma {:induction false} HandledPending(sh: Shared, evs: seq<RealtimeEvent>)
    ensures var sh' := HandleAll(sh, evs);
      && sh'.stop == sh.stop && sh'.paused == sh.paused && sh'.sweepCount == sh.sweepCount
      && (sh'.pending <==> sh.pending || (!sh.paused && exists i :: 0 <= i < |evs| && TriggerOf(evs[i]).Some?))
    decreases |evs|
  {
    if evs != [] {
      HandledPending(HandleOne(sh, evs[0]), evs[1..]);
      assert forall i :: 0 <= i < |evs| ==> evs[i] == if i == 0 then evs[0] else evs[1..][i - 1];
      if exists i :: 0 <= i < |evs[1..]| && TriggerOf(evs[1..][i]).Some? {
        var i :| 0 <= i < |evs[1..]| && TriggerOf(evs[1..][i]).Some?;
        assert TriggerOf(evs[i + 1]).Some?;
      }
    }
  }

  /** Whether the loop iteration that drains this queue goes on to sweep. */
  predicate WillSweep(sh: Shared, rx: Receiver) {
    sh.pending || (!sh.paused && (rx.lagged || exists i :: 0 <= i < |rx.events| && TriggerOf(rx.events[i]).Some?))
  }

  /** With nothing pending or queued, the loop goes straight to the select. */
  lemma ReturnToSelect(c: Config, o: Outcome) returns (n: nat)
    requires c.state.pc == CoalesceCheck && !c.state.shared.stop && !c.state.shared.pending
    requires c.state.rx.events == [] && !c.state.rx.lagged
    ensures Solo(c, n, o) == c.(state := c.state.(pc := PollWaker))
  {
    assert SoloStep(SoloStep(c, o), o) == c.(state := c.state.(pc := Drain));
    assert SoloStep(SoloStep(c.(state := c.state.(pc := Drain)), o), o) == c.(state := c.state.(pc := PollWaker));
    SoloFour(c, o);
    n := 4;
  }

  /** A pending sweep, and on to the select. */
  lemma SoloSweepToSelect(c: Config, o: Outcome) returns (n: nat)
    requires c.state.pc == ClearPending && !c.state.shared.stop
    requires c.state.rx.events == [] && !c.state.rx.lagged
    ensures Solo(c, n, o).state == c.state.(shared := Swept(c.state.shared, o), pc := PollWaker)
    ensures CountStarts(Solo(c, n, o).log) == CountStarts(c.log) + 1
  {
    var k := SoloSweep(c, o);
    OneStartIn(c.log, c.state.shared.paused, o);
    var m := ReturnToSelect(Solo(c, k, o), o);
    SoloPlus(c, k, m, o);
    n := k + m;
  }

  /** From the look at `pending` back to the select, when no event is queued. */
  lemma SoloIteration(c: Config, o: Outcome) returns (n: nat)
    requires c.state.pc == PendingCheck && !c.state.shared.stop
    requires c.state.rx.events == [] && !c.state.rx.lagged
    ensures var c' := Solo(c, n, o);
      && c'.state.pc == PollWaker && c'.state.rx == c.state.rx && c'.state.connected == c.state.connected
      && CountStarts(c'.log) == CountStarts(c.log) + if c.state.shared.pending then 1 else 0
  {
    SoloOne(c, o);
    n := 1;
    if c.state.shared.pending {
      var m := SoloSweepToSelect(SoloStep(c, o), o);
      SoloPlus(c, 1, m, o);
      n := 1 + m;
    }
  }

  /**
   * A burst costs one sweep: however many events are queued, the task drains them
   * all and is back at the select having swept once if any of them was a trigger
   * (or one was already pending, or events were lost), and not at all otherwise.
   */
  lemma BurstCostsOneSweep(c: Config, o: Outcome) returns (n: nat)
    requires c.state.pc == Drain && !c.state.shared.stop
    ensures Solo(c, n, o).state.pc == PollWaker && Solo(c, n, o).state.rx.events == []
    ensures CountStarts(Solo(c, n, o).log) ==
            CountStarts(c.log) + if WillSweep(c.state.shared, c.state.rx) then 1 else 0
    ensures Solo(c, n, o).state.connected == TrackAll(c.state.connected, c.state.rx.events)
  {
    var s := c.state;
    var k := SoloDrain(c, o);
    HandledPending(if s.rx.lagged then MarkUnlessPaused(s.shared, RealtimeRow) else s.shared, s.rx.events);
    assert Drained(s.shared, s.rx).pending <==> WillSweep(s.shared, s.rx);
    var m := SoloIteration(Solo(c, k, o), o);
    SoloPlus(c, k, m, o);
    n := k + m;
  }

  // ----- A closed broadcast ----------------------------------------------------

  /** A mark for the tick is still to come from this loop iteration. */
  predicate TickOwed(pc: Pc) {
    pc.PollTick? || ((pc.PausedCheck? || pc.NoteReason? || pc.StorePending?) && pc.reason == FallbackTick)
  }

  function TickMarks(log: seq<Obs>): nat {
    if log == [] then 0
    else TickMarks(log[..|log| - 1]) + if log[|log| - 1] == Marked(FallbackTick) then 1 else 0
  }

  function One(b: bool): nat {
    if b then 1 else 0
  }

  lemma ClosedQueueStep(s: State, o: Outcome, keepLag: bool)
    requires s.rx.closed && Queueing(s.pc)
    ensures var s' := TaskApply(s, o, keepLag);
      && s'.rx.closed && !s'.pc.PollTick? && (s'.pc.Asleep? ==> s.pc.PollTick?)
      && (TickOwed(s'.pc) ==> TickOwed(s.pc))
  {
  }

  lemma ClosedSharedStep(sh: Shared, pc: Pc, o: Outcome)
    requires !Queueing(pc)
    ensures var pc' := SharedStep(sh, pc, o).1;
      && !pc'.PollTick? && !pc'.Asleep?
      && One(TickOwed(pc')) + One(TaskEmits(sh, pc, o) == Some(Marked(FallbackTick))) <= One(TickOwed(pc))
  {
  }

  lemma ClosedStep(s: State, a: Action)
    requires s.rx.closed && Enabled(s, a)
    ensures var s' := Apply(s, a);
      && s'.rx.closed && (s'.pc.PollTick? ==> s.pc.PollTick?) && (s'.pc.Asleep? ==> s.pc.Asleep? || s.pc.PollTick?)
      && One(TickOwed(s'.pc)) + One(Emits(s, a) == Some(Marked(FallbackTick))) <= One(TickOwed(s.pc))
  {
    match a
    case TaskStep(o, keepLag) =>
      if Queueing(s.pc) {
        ClosedQueueStep(s, o, keepLag);
      } else {
        ClosedSharedStep(s.shared, s.pc, o);
      }
    case _ =>
  }

  /**
   * Once every sender of the broadcast is gone the event arm is always ready before
   * the tick.  At most one more tick marks a trigger, the one whose arm was already
   * being polled, and a task that is neither asleep nor there never sleeps again.
   */
  lemma {:induction false} ClosedBroadcastSilencesTick(c: Config, acts: seq<Action>, c': Config)
    requires c.state.rx.closed && RunFrom(c, acts) == Some(c')
    ensures TickMarks(c'.log) + One(TickOwed(c'.state.pc)) <= TickMarks(c.log) + One(TickOwed(c.state.pc))
    ensures !c.state.pc.Asleep? && !c.state.pc.PollTick? ==> !c'.state.pc.Asleep? && !c'.state.pc.PollTick?
    ensures c'.state.rx.closed
  {
    if acts != [] {
      var before, a := RunFrom(c, acts[..|acts| - 1]).value, acts[|acts| - 1];
      ClosedBroadcastSilencesTick(c, acts[..|acts| - 1], before);
      ClosedStep(before.state, a);
      assert c'.log == before.log || c'.log[..|c'.log| - 1] == before.log;
    }
  }

  /** The one tick is real: the arm is polled, the broadcast closes, the tick is due. */
  lemma LastTick(c: Config, o: Outcome)
    requires c.state.rx.closed && c.state.pc.PollTick? && c.state.tickDue && !c.state.connected && !c.state.shared.paused
    ensures Solo(c, 4, o).log == c.log + [Marked(FallbackTick)]
  {
    SoloFour(c, o);
    var c1 := SoloStep(c, o);
    MarkFirstHalf(c1, FallbackTick, ToLoop, o);
  }

  /** Left alone with nothing to do, the task falls asleep exactly when the broadcast is open. */
  lemma SleepsIffOpen(c: Config, o: Outcome)
    requires c.state.pc.PollWaker? && !c.state.shared.pulse && c.state.rx.events == [] && !c.state.tickDue
    ensures (exists n :: Solo(c, n, o).state.pc.Asleep?) <==> !c.state.rx.closed
  {
    if c.state.rx.closed {
      forall n ensures !Solo(c, n, o).state.pc.Asleep? {
        var acts := SoloIsRun(c, [], c, n, o);
        ClosedBroadcastSilencesTick(c, acts, Solo(c, n, o));
      }
    } else {
      SoloTwo(c, o);
      SoloOne(Solo(c, 2, o), o);
      SoloPlus(c, 2, 1, o);
      assert Solo(c, 3, o).state.pc.Asleep?;
    }
  }

  // ----- The tick while realtime is up -----------------------------------------

  /** A mark for the tick is only on its way while the task counts itself disconnected. */
  predicate TickWhileDown(s: State) {
    (s.pc.PausedCheck? || s.pc.NoteReason? || s.pc.StorePending?) && s.pc.reason == FallbackTick ==> !s.connected
  }

  lemma TickStep(s: State, a: Action)
    requires TickWhileDown(s) && Enabled(s, a)
    ensures TickWhileDown(Apply(s, a))
    ensures Emits(s, a) == Some(Marked(FallbackTick)) ==> !s.connected
  {
  }

  /** The tick is a backstop: in no run does it mark a trigger while the task counts itself connected. */
  lemma {:induction false} TickOnlyWhileDown(tickEnabled: bool, acts: seq<Action>, c: Config, a: Action)
    requires IsRun(tickEnabled, acts, c) && Enabled(c.state, a)
    ensures Emits(c.state, a) == Some(Marked(FallbackTick)) ==> !c.state.connected
    ensures TickWhileDown(c.state)
    decreases |acts|
  {
    if acts != [] {
      var front, last := acts[..|acts| - 1], acts[|acts| - 1];
      var before := RunFrom(Init(tickEnabled), front).value;
      TickOnlyWhileDown(tickEnabled, front, before, last);
      TickStep(before.state, last);
    }
    TickStep(c.state, a);
  }
}
