/**
 * The resumption driver's trigger task as a step machine.
 *
 * One long-lived task shares four atomics and a one-slot waker channel with any
 * number of outside callers of `stop()` and `notify_foreground()`.  Every load
 * and store of an atomic, every channel operation and every poll of a `select!`
 * arm is one step, and steps of the task, the callers, the realtime publisher
 * and the timer interleave freely.  Atomics are sequentially consistent.
 *
 * A run is the sequence of its actions.  The log of what happened is kept beside
 * the state, so no step can depend on it.
 */
module DriverTask {
  import opened Wrappers
  import opened RealtimeEvents

  // The realtime service's broadcast queue; a full queue drops its oldest event.
  const EVENT_CAPACITY: nat := 256

  datatype Outcome = SweepOk | SweepUnauthenticated | SweepFailed

  // Where a mark made while handling an event or a tick continues.
  datatype Return = ToDrain | ToLoop

  datatype Pc =
    | Boot                                            // spawned; the waker receiver does not exist yet
    | LoopCheck                                       // load `stop`
    | Drain                                           // one `try_recv`
    | PausedCheck(reason: TriggerReason, ret: Return) // load `paused` before a mark
    | NoteReason(reason: TriggerReason, ret: Return)  // mark: `reasons_seen |= bit`
    | StorePending(reason: TriggerReason, ret: Return) // mark: `pending := true`
    | Poke(ret: Return)                               // mark: pulse the waker
    | PendingCheck                                    // load `pending`
    | ClearPending                                    // `pending := false`; the sweep starts
    | Sweeping
    | CountSweep(outcome: Outcome)                    // `sweep_count += 1`
    | Settle(outcome: Outcome)                        // `paused := true` on Unauthenticated
    | CoalesceCheck                                   // load `pending` after the sweep
    | NoteCoalesced
    | PollWaker                                       // the three arms of the biased select
    | PollEvents
    | PollTick
    | Asleep                                          // every arm was polled and none was ready
    | Exited

  // A `notify_foreground` starts at ClearPaused, a `stop` at StoreStop.
  datatype CallerPc = ClearPaused | NoteForeground | MarkForeground | StoreStop | PokeWaker

  // The atomics of the source's `Shared`, and its one-slot waker channel.
  datatype Shared = Shared(
    stop: bool,
    pending: bool,
    paused: bool,
    sweepCount: nat,
    reasons: set<TriggerReason>,
    listening: bool,            // the task holds its waker receiver
    pulse: bool)                // a pulse is queued

  // The task's receiver on the realtime broadcast.
  datatype Receiver = Receiver(
    events: seq<RealtimeEvent>,
    lagged: bool,               // the publisher overran the receiver
    closed: bool)               // every sender is gone

  datatype State = State(
    shared: Shared,
    rx: Receiver,
    tickDue: bool,
    tickEnabled: bool,
    connected: bool,
    pc: Pc,
    callers: multiset<CallerPc>) // where each call in progress stands

  datatype Action =
    | TaskStep(outcome: Outcome, keepLag: bool)
    | CallerStep(at: CallerPc)
    | CallNotify
    | CallStop
    | Publish(ev: RealtimeEvent)
    | CloseBroadcast
    | TickFires

  // What a run did, in order.
  datatype Obs =
    | Marked(reason: TriggerReason)  // the store `pending := true`
    | SweepStarted(whilePaused: bool)
    | SweepReturned(outcome: Outcome)
    | PauseSet
    | PauseCleared
    | StopStored

  datatype Config = Config(state: State, log: seq<Obs>)

  /** `start()`: the initial mark is made before the task is spawned. */
  function Init(tickEnabled: bool): Config {
    Config(
      State(Shared(false, true, false, 0, {InitialStart}, false, false), Receiver([], false, false),
            false, tickEnabled, false, Boot, multiset{}),
      [Marked(InitialStart)])
  }

  /** A pulse sent before the task created its receiver reaches nobody. */
  function Poked(sh: Shared): Shared {
    sh.(pulse := sh.pulse || sh.listening)
  }

  function Resume(ret: Return): Pc {
    if ret == ToDrain then Drain else LoopCheck
  }

  /** Where `handle_realtime_event` stands once it has looked at the event's name. */
  function AfterEvent(ev: RealtimeEvent, ret: Return): Pc {
    match TriggerOf(ev)
    case Some(reason) => PausedCheck(reason, ret)
    case None => Resume(ret)
  }

  /** The head of the queue is received and handled up to the load of `paused`. */
  function Receive(s: State, lagged: bool, ret: Return): State
    requires s.rx.events != []
  {
    var ev := s.rx.events[0];
    s.(rx := s.rx.(events := s.rx.events[1..], lagged := lagged),
       connected := Track(s.connected, ev),
       pc := AfterEvent(ev, ret))
  }

  /** The task's steps that touch only its program counter and the shared atomics. */
  function SharedStep(sh: Shared, pc: Pc, outcome: Outcome): (Shared, Pc) {
    match pc
    case Boot => (sh.(listening := true), LoopCheck)
    case LoopCheck => (sh, if sh.stop then Exited else Drain)
    case PausedCheck(reason, ret) => (sh, if sh.paused then Resume(ret) else NoteReason(reason, ret))
    case NoteReason(reason, ret) => (sh.(reasons := sh.reasons + {reason}), StorePending(reason, ret))
    case StorePending(reason, ret) => (sh.(pending := true), Pc.Poke(ret))
    case Poke(ret) => (Poked(sh), Resume(ret))
    case PendingCheck => (sh, if sh.pending then ClearPending else PollWaker)
    case ClearPending => (sh.(pending := false), Sweeping)
    case Sweeping => (sh, CountSweep(outcome))
    case CountSweep(o) => (sh.(sweepCount := sh.sweepCount + 1), Settle(o))
    case Settle(o) => (sh.(paused := sh.paused || o == SweepUnauthenticated), CoalesceCheck)
    case CoalesceCheck => (sh, if sh.pending then NoteCoalesced else LoopCheck)
    case NoteCoalesced => (sh.(reasons := sh.reasons + {Coalesced}), LoopCheck)
    case PollWaker => if sh.pulse then (sh.(pulse := false), LoopCheck) else (sh, PollEvents)
    case Asleep => (sh, PollWaker)
    case _ => (sh, pc)
  }

  /**
   * One step of the task.  `outcome` is what a sweep returns; `keepLag` is whether
   * the stream adapter polled while parked leaves an overrun for `try_recv` to see.
   */
  function TaskApply(s: State, outcome: Outcome, keepLag: bool): State {
    match s.pc
    case Drain =>
      if s.rx.lagged then s.(rx := s.rx.(lagged := false), pc := PausedCheck(RealtimeRow, ToDrain))
      else if s.rx.events != [] then Receive(s, false, ToDrain)
      else s.(pc := PendingCheck)
    case PollEvents =>
      if s.rx.events != [] then Receive(s, s.rx.lagged && keepLag, ToLoop)
      else s.(pc := if s.rx.closed then LoopCheck else PollTick)
    case PollTick =>
      if !s.tickDue then s.(pc := Asleep)
      else s.(tickDue := false, pc := if s.connected then LoopCheck else PausedCheck(FallbackTick, ToLoop))
    case _ =>
      var (sh, pc) := SharedStep(s.shared, s.pc, outcome);
      s.(shared := sh, pc := pc)
  }

  /** What the log records of a task step. */
  function TaskEmits(sh: Shared, pc: Pc, outcome: Outcome): Option<Obs> {
    match pc
    case StorePending(reason, _) => Some(Marked(reason))
    case ClearPending => Some(SweepStarted(sh.paused))
    case Sweeping => Some(SweepReturned(outcome))
    case Settle(o) => if o == SweepUnauthenticated then Some(PauseSet) else None
    case _ => None
  }

  /** The effect of an outside call's step on the atomics. */
  function CallerStore(sh: Shared, at: CallerPc): Shared {
    match at
    case ClearPaused => sh.(paused := false)
    case NoteForeground => sh.(reasons := sh.reasons + {Foreground})
    case MarkForeground => sh.(pending := true)
    case StoreStop => sh.(stop := true)
    case PokeWaker => Poked(sh)
  }

  function CallerNext(at: CallerPc): multiset<CallerPc> {
    match at
    case ClearPaused => multiset{NoteForeground}
    case NoteForeground => multiset{MarkForeground}
    case MarkForeground => multiset{PokeWaker}
    case StoreStop => multiset{PokeWaker}
    case PokeWaker => multiset{}
  }

  function CallerApply(s: State, at: CallerPc): State {
    s.(shared := CallerStore(s.shared, at), callers := s.callers - multiset{at} + CallerNext(at))
  }

  function CallerEmits(at: CallerPc): Option<Obs> {
    match at
    case ClearPaused => Some(PauseCleared)
    case MarkForeground => Some(Marked(Foreground))
    case StoreStop => Some(StopStored)
    case _ => None
  }

  function Published(rx: Receiver, ev: RealtimeEvent): Receiver {
    if |rx.events| < EVENT_CAPACITY then rx.(events := rx.events + [ev])
    else rx.(events := rx.events[1..] + [ev], lagged := true)
  }

  predicate Enabled(s: State, a: Action) {
    match a
    case TaskStep(_, _) => s.pc != Exited
    case CallerStep(at) => at in s.callers
    case CallNotify => true
    case CallStop => true
    case Publish(_) => !s.rx.closed
    case CloseBroadcast => true
    case TickFires => s.tickEnabled
  }

  function Apply(s: State, a: Action): State
    requires Enabled(s, a)
  {
    match a
    case TaskStep(outcome, keepLag) => TaskApply(s, outcome, keepLag)
    case CallerStep(at) => CallerApply(s, at)
    case CallNotify => s.(callers := s.callers + multiset{ClearPaused})
    case CallStop => s.(callers := s.callers + multiset{StoreStop})
    case Publish(ev) => s.(rx := Published(s.rx, ev))
    case CloseBroadcast => s.(rx := s.rx.(closed := true))
    case TickFires => s.(tickDue := true)
  }

  function Emits(s: State, a: Action): Option<Obs>
    requires Enabled(s, a)
  {
    match a
    case TaskStep(outcome, _) => TaskEmits(s.shared, s.pc, outcome)
    case CallerStep(at) => CallerEmits(at)
    case _ => None
  }

  function Logged(log: seq<Obs>, o: Option<Obs>): seq<Obs> {
    if o.Some? then log + [o.value] else log
  }

  function Step(c: Config, a: Action): Config
    requires Enabled(c.state, a)
  {
    Config(Apply(c.state, a), Logged(c.log, Emits(c.state, a)))
  }

  /** Where a sequence of actions leads from `c`; None when one of them was not enabled. */
  function RunFrom(c: Config, acts: seq<Action>): Option<Config> {
    if acts == [] then Some(c)
    else
      var before := RunFrom(c, acts[..|acts| - 1]);
      var a := acts[|acts| - 1];
      if before.Some? && Enabled(before.value.state, a) then Some(Step(before.value, a)) else None
  }

  /** `c` is reached by some interleaving. */
  predicate IsRun(tickEnabled: bool, acts: seq<Action>, c: Config) {
    RunFrom(Init(tickEnabled), acts) == Some(c)
  }

  // ----- The same code when nobody interferes ----------------------------------

  function Mark(sh: Shared, reason: TriggerReason): Shared {
    Poked(sh.(reasons := sh.reasons + {reason}, pending := true))
  }

  function MarkUnlessPaused(sh: Shared, reason: TriggerReason): Shared {
    if sh.paused then sh else Mark(sh, reason)
  }

  function HandleOne(sh: Shared, ev: RealtimeEvent): Shared {
    match TriggerOf(ev)
    case Some(reason) => MarkUnlessPaused(sh, reason)
    case None => sh
  }

  function HandleAll(sh: Shared, evs: seq<RealtimeEvent>): Shared
    decreases |evs|
  {
    if evs == [] then sh else HandleAll(HandleOne(sh, evs[0]), evs[1..])
  }

  function Drained(sh: Shared, rx: Receiver): Shared {
    HandleAll(if rx.lagged then MarkUnlessPaused(sh, RealtimeRow) else sh, rx.events)
  }

  function Swept(sh: Shared, outcome: Outcome): Shared {
    sh.(pending := false, sweepCount := sh.sweepCount + 1, paused := sh.paused || outcome == SweepUnauthenticated)
  }

  /** What the rest of an outside call does to the atomics. */
  function CallShared(sh: Shared, at: CallerPc): Shared
    decreases at == ClearPaused, at == NoteForeground, at != PokeWaker
  {
    match at
    case ClearPaused => CallShared(CallerStore(sh, at), NoteForeground)
    case NoteForeground => CallShared(CallerStore(sh, at), MarkForeground)
    case PokeWaker => CallerStore(sh, at)
    case _ => CallShared(CallerStore(sh, at), PokeWaker)
  }

  /** What the log records of the rest of an outside call. */
  function CallLog(at: CallerPc): seq<Obs> {
    match at
    case ClearPaused => [PauseCleared, Marked(Foreground)]
    case NoteForeground => [Marked(Foreground)]
    case MarkForeground => [Marked(Foreground)]
    case StoreStop => [StopStored]
    case PokeWaker => []
  }

  // ----- Reading a log ---------------------------------------------------------

  /** How many marks were made since the latest sweep started. */
  function MarksSinceStart(log: seq<Obs>): nat {
    if log == [] then 0
    else
      var front := log[..|log| - 1];
      match log[|log| - 1]
      case SweepStarted(_) => 0
      case Marked(_) => MarksSinceStart(front) + 1
      case _ => MarksSinceStart(front)
  }

  function CountMarks(log: seq<Obs>): nat {
    if log == [] then 0
    else CountMarks(log[..|log| - 1]) + if log[|log| - 1].Marked? then 1 else 0
  }

  function CountStarts(log: seq<Obs>): nat {
    if log == [] then 0
    else CountStarts(log[..|log| - 1]) + if log[|log| - 1].SweepStarted? then 1 else 0
  }

  /** How many sweeps started after the first `stop` store. */
  function StartsAfterStop(log: seq<Obs>): nat {
    if log == [] then 0
    else
      var front := log[..|log| - 1];
      StartsAfterStop(front) + if log[|log| - 1].SweepStarted? && StopStored in front then 1 else 0
  }

  /** A mark other than a foreground one was made since the latest sweep started. */
  predicate RealtimeMarkSinceStart(log: seq<Obs>) {
    log != [] &&
    var front := log[..|log| - 1];
    match log[|log| - 1]
    case SweepStarted(_) => false
    case Marked(reason) => reason != Foreground || RealtimeMarkSinceStart(front)
    case _ => RealtimeMarkSinceStart(front)
  }

  /** The latest write to `paused` set it. */
  predicate LastPauseWriteSet(log: seq<Obs>) {
    log != [] &&
    match log[|log| - 1]
    case PauseSet => true
    case PauseCleared => false
    case _ => LastPauseWriteSet(log[..|log| - 1])
  }
}
