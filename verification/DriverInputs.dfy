/**
 * What the trigger task does with its inputs: every event, overrun and tick it takes,
 * in the drain loop or while parked, is tracked and leads to the mark it asks for.
 * A step's inputs are read off the states around it.
 */
module DriverInputs {
  import opened Wrappers
  import opened RealtimeEvents
  import opened DriverTask
  import opened DriverTaskSafety
  import opened DriverTaskProgress
  import opened DriverBursts

  // ----- What was received -----------------------------------------------------

  /** The event by which the queue became shorter. */
  function Taken(s: State, s': State): Option<RealtimeEvent> {
    if |s'.rx.events| < |s.rx.events| then Some(s.rx.events[0]) else None
  }

  function AsSeq<T>(o: Option<T>): seq<T> {
    if o.Some? then [o.value] else []
  }

  /** The events the task received along a run, in order. */
  function ReceivedAlong(c: Config, acts: seq<Action>): seq<RealtimeEvent>
    requires RunFrom(c, acts).Some?
  {
    if acts == [] then []
    else
      var front := acts[..|acts| - 1];
      ReceivedAlong(c, front) + AsSeq(Taken(RunFrom(c, front).value.state, RunFrom(c, acts).value.state))
  }

  lemma TaskTracks(s: State, o: Outcome, keepLag: bool)
    ensures var s' := TaskApply(s, o, keepLag);
      s'.connected == TrackAll(s.connected, AsSeq(Taken(s, s')))
  {
  }

  lemma StepTracks(s: State, a: Action)
    requires Enabled(s, a)
    ensures Apply(s, a).connected == TrackAll(s.connected, AsSeq(Taken(s, Apply(s, a))))
  {
    match a
    case TaskStep(o, keepLag) => TaskTracks(s, o, keepLag);
    case _ =>
  }

  /** In every interleaving the task's `connected` is the tracking of everything it received, in order. */
  lemma {:induction false} ConnectedIsTracked(c: Config, acts: seq<Action>, c': Config)
    requires RunFrom(c, acts) == Some(c')
    ensures c'.state.connected == TrackAll(c.state.connected, ReceivedAlong(c, acts))
  {
    if acts != [] {
      var front, a := acts[..|acts| - 1], acts[|acts| - 1];
      var before := RunFrom(c, front).value;
      ConnectedIsTracked(c, front, before);
      StepTracks(before.state, a);
      TrackAppend(c.state.connected, ReceivedAlong(c, front), AsSeq(Taken(before.state, c'.state)));
    }
  }

  // ----- What was published ----------------------------------------------------

  function PublishedAlong(acts: seq<Action>): seq<RealtimeEvent> {
    if acts == [] then []
    else
      var a := acts[|acts| - 1];
      PublishedAlong(acts[..|acts| - 1]) + if a.Publish? then [a.ev] else []
  }

  /** The event that left the queue: received, or dropped by a publication that did not make it longer. */
  function Gone(s: State, a: Action, s': State): Option<RealtimeEvent> {
    if a.Publish? && |s'.rx.events| == |s.rx.events| && s.rx.events != [] then Some(s.rx.events[0]) else Taken(s, s')
  }

  function GoneAlong(c: Config, acts: seq<Action>): seq<RealtimeEvent>
    requires RunFrom(c, acts).Some?
  {
    if acts == [] then []
    else
      var front := acts[..|acts| - 1];
      GoneAlong(c, front) + AsSeq(Gone(RunFrom(c, front).value.state, acts[|acts| - 1], RunFrom(c, acts).value.state))
  }

  lemma TaskTakesHead(s: State, o: Outcome, keepLag: bool)
    ensures var s' := TaskApply(s, o, keepLag); AsSeq(Taken(s, s')) + s'.rx.events == s.rx.events
  {
    var s' := TaskApply(s, o, keepLag);
    QueueOrTail(s, o, keepLag);
    if s'.rx.events == s.rx.events {
      assert AsSeq(Taken(s, s')) == [];
    } else {
      assert s.rx.events == [s.rx.events[0]] + s.rx.events[1..];
    }
  }

  lemma QueueOrTail(s: State, o: Outcome, keepLag: bool)
    ensures var s' := TaskApply(s, o, keepLag);
      s'.rx.events == s.rx.events || (s.rx.events != [] && s'.rx.events == s.rx.events[1..])
  {
  }

  lemma StepKeepsOrder(s: State, a: Action)
    requires Enabled(s, a) && |s.rx.events| <= EVENT_CAPACITY
    ensures var s' := Apply(s, a);
      && AsSeq(Gone(s, a, s')) + s'.rx.events == s.rx.events + (if a.Publish? then [a.ev] else [])
      && |s'.rx.events| <= EVENT_CAPACITY
  {
    match a
    case TaskStep(o, keepLag) => TaskTakesHead(s, o, keepLag);
    case _ =>
  }

  /** First in, first out: what left the queue and what is in it are the publications, in their order. */
  lemma {:induction false} QueueInOrder(c: Config, acts: seq<Action>, c': Config)
    requires RunFrom(c, acts) == Some(c') && |c.state.rx.events| <= EVENT_CAPACITY
    ensures GoneAlong(c, acts) + c'.state.rx.events == c.state.rx.events + PublishedAlong(acts)
    ensures |c'.state.rx.events| <= EVENT_CAPACITY
  {
    if acts != [] {
      var front, a := acts[..|acts| - 1], acts[|acts| - 1];
      var before := RunFrom(c, front).value;
      QueueInOrder(c, front, before);
      StepKeepsOrder(before.state, a);
      InOrder(GoneAlong(c, front), AsSeq(Gone(before.state, a, c'.state)), before.state.rx.events, c'.state.rx.events,
              c.state.rx.events, PublishedAlong(front), if a.Publish? then [a.ev] else []);
    }
  }

  lemma InOrder<T>(gone: seq<T>, left: seq<T>, queue: seq<T>, queue': seq<T>, first: seq<T>, published: seq<T>, more: seq<T>)
    requires gone + queue == first + published && left + queue' == queue + more
    ensures (gone + left) + queue' == first + (published + more)
  {
    calc {
      (gone + left) + queue';
      gone + (left + queue');
      gone + (queue + more);
      (gone + queue) + more;
      (first + published) + more;
      first + (published + more);
    }
  }

  /** A publication drops the oldest event exactly when 256 are queued, and the receiver can tell. */
  lemma OverrunIff(s: State, ev: RealtimeEvent)
    requires Enabled(s, Publish(ev))
    ensures var s' := Apply(s, Publish(ev));
      && (|s.rx.events| >= 256 <==> |s'.rx.events| <= |s.rx.events|)
      && (s'.rx.lagged <==> s.rx.lagged || |s.rx.events| >= 256)
  {
  }

  // ----- What it leads to ------------------------------------------------------

  /**
   * What a step's inputs ask for: the trigger of the event it received, a row trigger
   * for an overrun it reported instead of an event, or a tick for a due tick it took
   * while the task counts itself disconnected.
   */
  function Asked(s: State, s': State): Option<TriggerReason> {
    if Taken(s, s').Some? then TriggerOf(Taken(s, s').value)
    else if s.rx.lagged && !s'.rx.lagged then Some(RealtimeRow)
    else if s.tickDue && !s'.tickDue && !s.connected then Some(FallbackTick)
    else None
  }

  /** The step makes the mark that is owed, or finds the driver paused at the check for it. */
  predicate Settles(before: Config, a: Action, after: Config, reason: TriggerReason) {
    a.TaskStep? && (after.log == before.log + [Marked(reason)] || (before.state.pc.PausedCheck? && before.state.shared.paused))
  }

  /** The mark that some input has asked for and that has been neither made nor suppressed by a pause. */
  function Owed(c: Config, acts: seq<Action>): Option<TriggerReason>
    requires RunFrom(c, acts).Some?
  {
    if acts == [] then None
    else
      var front := acts[..|acts| - 1];
      var before, after, owed := RunFrom(c, front).value, RunFrom(c, acts).value, Owed(c, front);
      if Asked(before.state, after.state).Some? then Asked(before.state, after.state)
      else if owed.Some? && Settles(before, acts[|acts| - 1], after, owed.value) then None
      else owed
  }

  /** On the way to the mark: the check of `paused`, the note of the reason, or the store itself. */
  predicate MakingMark(pc: Pc, reason: TriggerReason) {
    match pc
    case PausedCheck(r, _) => r == reason
    case NoteReason(r, _) => r == reason
    case StorePending(r, _) => r == reason
    case _ => false
  }

  lemma AskedByTask(s: State, o: Outcome, keepLag: bool)
    ensures var s' := TaskApply(s, o, keepLag);
      Asked(s, s').Some? ==> Queueing(s.pc) && MakingMark(s'.pc, Asked(s, s').value)
  {
  }

  lemma OthersAskNothing(s: State, a: Action)
    requires Enabled(s, a) && !a.TaskStep?
    ensures Asked(s, Apply(s, a)) == None && Apply(s, a).pc == s.pc
  {
  }

  lemma MarkGoesOn(c: Config, o: Outcome, keepLag: bool, reason: TriggerReason)
    requires MakingMark(c.state.pc, reason)
    ensures var after := Step(c, TaskStep(o, keepLag));
      Settles(c, TaskStep(o, keepLag), after, reason) || MakingMark(after.state.pc, reason)
  {
  }

  lemma {:induction false} OwedIsBeingMade(c: Config, acts: seq<Action>, c': Config)
    requires RunFrom(c, acts) == Some(c')
    ensures Owed(c, acts).Some? ==> MakingMark(c'.state.pc, Owed(c, acts).value)
  {
    if acts != [] {
      var front, a := acts[..|acts| - 1], acts[|acts| - 1];
      var before := RunFrom(c, front).value;
      OwedIsBeingMade(c, front, before);
      if a.TaskStep? {
        AskedByTask(before.state, a.outcome, a.keepLag);
        if Owed(c, front).Some? {
          MarkGoesOn(before, a.outcome, a.keepLag, Owed(c, front).value);
        }
      } else {
        OthersAskNothing(before.state, a);
      }
    }
  }

  /**
   * No input is dropped.  In every interleaving, whenever the task is about to load
   * `stop`, to receive, to look at `pending` or to poll, every event, overrun and tick
   * it took has had the mark it asks for, unless `paused` was set when that was checked.
   */
  lemma InputsAreMarked(c: Config, acts: seq<Action>, c': Config)
    requires RunFrom(c, acts) == Some(c')
    ensures c'.state.pc.LoopCheck? || c'.state.pc.Drain? || c'.state.pc.PendingCheck? || Parked(c'.state.pc) ==>
            Owed(c, acts) == None
  {
    OwedIsBeingMade(c, acts, c');
  }

  /** An input that asks for something is never taken while the mark of an earlier one is owed. */
  lemma OneAtATime(c: Config, acts: seq<Action>, c': Config, a: Action)
    requires RunFrom(c, acts) == Some(c') && Enabled(c'.state, a)
    ensures Asked(c'.state, Apply(c'.state, a)).Some? ==> Owed(c, acts) == None
  {
    OwedIsBeingMade(c, acts, c');
    if a.TaskStep? {
      AskedByTask(c'.state, a.outcome, a.keepLag);
    } else {
      OthersAskNothing(c'.state, a);
    }
  }

  // ----- What wakes the task ---------------------------------------------------

  predicate NothingReady(s: State) {
    !s.shared.pulse && s.rx.events == [] && !s.rx.closed && !s.tickDue
  }

  lemma {:induction false} StaysParked(c: Config, n: nat, o: Outcome)
    requires Parked(c.state.pc) && NothingReady(c.state)
    ensures Parked(Solo(c, n, o).state.pc)
    decreases n
  {
    if n > 0 {
      StaysParked(SoloStep(c, o), n - 1, o);
    }
  }

  lemma WakesOnPulse(c: Config, o: Outcome)
    requires c.state.pc.Asleep? && c.state.shared.pulse
    ensures !Parked(Solo(c, 2, o).state.pc)
  {
    SoloTwo(c, o);
  }

  lemma PollsEvents(c: Config, o: Outcome)
    requires c.state.pc.Asleep? && !c.state.shared.pulse
    ensures Solo(c, 2, o) == c.(state := c.state.(pc := PollEvents))
  {
    SoloTwo(c, o);
  }

  lemma WakesOnEvents(c: Config, o: Outcome)
    requires c.state.pc.PollEvents? && (c.state.rx.events != [] || c.state.rx.closed)
    ensures !Parked(Solo(c, 1, o).state.pc)
  {
    SoloOne(c, o);
  }

  lemma WakesOnTick(c: Config, o: Outcome)
    requires c.state.pc.PollEvents? && c.state.rx.events == [] && !c.state.rx.closed && c.state.tickDue
    ensures !Parked(Solo(c, 2, o).state.pc)
  {
    SoloTwo(c, o);
  }

  /**
   * Left alone, a sleeping task leaves the select exactly if a pulse, an event, the
   * end of the broadcast or a due tick is there.
   */
  lemma LeavesSelectIff(c: Config, o: Outcome)
    requires c.state.pc.Asleep?
    ensures (exists n :: !Parked(Solo(c, n, o).state.pc)) <==> !NothingReady(c.state)
  {
    if NothingReady(c.state) {
      forall n ensures Parked(Solo(c, n, o).state.pc) { StaysParked(c, n, o); }
    } else if c.state.shared.pulse {
      WakesOnPulse(c, o);
    } else {
      PollsEvents(c, o);
      var n := Wakes(Solo(c, 2, o), o);
      SoloPlus(c, 2, n, o);
    }
  }

  lemma Wakes(c: Config, o: Outcome) returns (n: nat)
    requires c.state.pc.PollEvents? && !c.state.shared.pulse && !NothingReady(c.state)
    ensures !Parked(Solo(c, n, o).state.pc)
  {
    if c.state.rx.events != [] || c.state.rx.closed {
      WakesOnEvents(c, o);
      n := 1;
    } else {
      WakesOnTick(c, o);
      n := 2;
    }
  }

  // ----- Counters --------------------------------------------------------------

  function CountReturns(log: seq<Obs>): nat {
    if log == [] then 0
    else CountReturns(log[..|log| - 1]) + if log[|log| - 1].SweepReturned? then 1 else 0
  }

  predicate CountersAt(sh: Shared, pc: Pc, returned: nat) {
    && sh.sweepCount + One(pc.CountSweep?) == returned
    && (sh.listening <==> !pc.Boot?)
    && (sh.pulse ==> sh.listening)
    && !NotAMark(pc)
  }

  predicate CountersInv(c: Config) {
    CountersAt(c.state.shared, c.state.pc, CountReturns(c.log))
  }

  // Only the loop itself notes a re-run, and only callers a foreground edge.
  predicate NotAMark(pc: Pc) {
    (pc.PausedCheck? || pc.NoteReason? || pc.StorePending?) && (pc.reason == Coalesced || pc.reason == Foreground)
  }

  lemma CountAppend(log: seq<Obs>, o: Option<Obs>)
    ensures CountReturns(Logged(log, o)) == CountReturns(log) + One(o.Some? && o.value.SweepReturned?)
  {
    assert o.Some? ==> Logged(log, o)[..|log|] == log;
  }

  lemma CountersStep(c: Config, a: Action)
    requires CountersInv(c) && Enabled(c.state, a)
    ensures CountersInv(Step(c, a))
  {
    CountersStateStep(c.state, a, CountReturns(c.log));
    ReturnsLogged(c.state, a);
    CountAppend(c.log, Emits(c.state, a));
  }

  lemma ReturnsLogged(s: State, a: Action)
    requires Enabled(s, a)
    ensures Emits(s, a).Some? && Emits(s, a).value.SweepReturned? <==> a.TaskStep? && s.pc.Sweeping?
  {
  }

  lemma CountersStateStep(s: State, a: Action, returned: nat)
    requires CountersAt(s.shared, s.pc, returned) && Enabled(s, a)
    ensures var s' := Apply(s, a); CountersAt(s'.shared, s'.pc, returned + One(a.TaskStep? && s.pc.Sweeping?))
  {
    match a
    case TaskStep(o, keepLag) =>
      if Queueing(s.pc) {
        QueueStep(s, o, keepLag);
        QueueCounts(s, o, keepLag);
      } else {
        SharedCounts(s.shared, s.pc, o, returned);
      }
    case CallerStep(at) => CallerCounts(s.shared, s.pc, at, returned);
    case _ =>
  }

  lemma QueueCounts(s: State, o: Outcome, keepLag: bool)
    requires Queueing(s.pc)
    ensures var pc' := TaskApply(s, o, keepLag).pc; !NotAMark(pc') && !pc'.CountSweep? && !pc'.Boot?
  {
  }

  lemma SharedCounts(sh: Shared, pc: Pc, o: Outcome, returned: nat)
    requires !Queueing(pc) && CountersAt(sh, pc, returned)
    ensures var (sh', pc') := SharedStep(sh, pc, o); CountersAt(sh', pc', returned + One(pc.Sweeping?))
  {
  }

  lemma CallerCounts(sh: Shared, pc: Pc, at: CallerPc, returned: nat)
    requires CountersAt(sh, pc, returned)
    ensures CountersAt(CallerStore(sh, at), pc, returned)
  {
  }

  /** A mark of this reason is logged, or noted and about to be made. */
  predicate Noted(s: State, log: seq<Obs>, reason: TriggerReason) {
    || Marked(reason) in log
    || (s.pc.StorePending? && s.pc.reason == reason)
    || (reason == Foreground && MarkForeground in s.callers)
  }

  predicate ReasonKept(c: Config, reason: TriggerReason) {
    reason in c.state.shared.reasons <==> Noted(c.state, c.log, reason)
  }

  lemma LoggedHas(log: seq<Obs>, o: Option<Obs>, x: Obs)
    ensures x in Logged(log, o) <==> x in log || o == Some(x)
  {
  }

  lemma ReasonStep(c: Config, a: Action, reason: TriggerReason)
    requires ReasonKept(c, reason) && reason != Coalesced && Enabled(c.state, a) && !NotAMark(c.state.pc)
    ensures ReasonKept(Step(c, a), reason)
  {
    LoggedHas(c.log, Emits(c.state, a), Marked(reason));
    match a
    case TaskStep(o, keepLag) =>
      if Queueing(c.state.pc) {
        QueueStep(c.state, o, keepLag);
      } else {
        SharedReasons(c.state.shared, c.state.pc, o, reason);
      }
    case CallerStep(at) =>
      CallerReasons(c.state.shared, c.state.callers, at, reason);
    case _ =>
  }

  lemma SharedReasons(sh: Shared, pc: Pc, o: Outcome, reason: TriggerReason)
    requires !Queueing(pc) && reason != Coalesced
    ensures var (sh', pc') := SharedStep(sh, pc, o);
      && (reason in sh'.reasons <==> reason in sh.reasons || (pc'.StorePending? && pc'.reason == reason))
      && (pc.StorePending? && pc.reason == reason <==> TaskEmits(sh, pc, o) == Some(Marked(reason)))
  {
  }

  lemma CallerReasons(sh: Shared, callers: multiset<CallerPc>, at: CallerPc, reason: TriggerReason)
    requires at in callers
    ensures var callers' := callers - multiset{at} + CallerNext(at);
      && (reason in CallerStore(sh, at).reasons <==> reason in sh.reasons || (reason == Foreground && at == NoteForeground))
      && (MarkForeground in callers' ==> MarkForeground in callers || at == NoteForeground)
      && (at == NoteForeground ==> MarkForeground in callers')
      && (MarkForeground in callers && MarkForeground !in callers' ==> CallerEmits(at) == Some(Marked(Foreground)))
      && (CallerEmits(at) == Some(Marked(reason)) ==> reason == Foreground && MarkForeground in callers)
  {
  }

  /**
   * In every interleaving the sweep count is the number of sweeps that returned, but
   * for one not counted yet; the reasons seen, apart from the re-run's own, are those
   * of the marks made or about to be made; and only a task that listens has a pulse.
   */
  lemma {:induction false} CountersExactly(tickEnabled: bool, acts: seq<Action>, c: Config)
    requires IsRun(tickEnabled, acts, c)
    ensures CountersInv(c) && forall reason :: reason != Coalesced ==> ReasonKept(c, reason)
  {
    if acts != [] {
      var before := RunFrom(Init(tickEnabled), acts[..|acts| - 1]).value;
      CountersExactly(tickEnabled, acts[..|acts| - 1], before);
      CountersStep(before, acts[|acts| - 1]);
      forall reason | reason != Coalesced ensures ReasonKept(c, reason) {
        ReasonStep(before, acts[|acts| - 1], reason);
      }
    }
  }
}
