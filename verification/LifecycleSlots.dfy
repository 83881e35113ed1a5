/**
 * The three slots behind the realtime subscription: pump task, service and
 * resumption driver.  Each start call makes one of each, named by the call.
 */
module LifecycleSlots {
  import opened Wrappers

  /** What a slot holds, and what was stopped on leaving it. */
  datatype Slot = Slot(held: Option<nat>, stopped: set<nat>)

  function Held(s: Slot): set<nat> {
    if s.held.Some? then {s.held.value} else {}
  }

  function Replace(s: Slot, g: nat): Slot {
    Slot(Some(g), s.stopped + Held(s))
  }

  function Take(s: Slot): Slot {
    Slot(None, s.stopped + Held(s))
  }

  datatype Slots = Slots(task: Slot, service: Slot, driver: Slot)

  // A start fills the task, the service and the driver slot, in this order.
  function Fill(slots: Slots, g: nat, done: nat): Slots {
    match done
    case 0 => slots.(task := Replace(slots.task, g))
    case 1 => slots.(service := Replace(slots.service, g))
    case _ => slots.(driver := Replace(slots.driver, g))
  }

  // A stop empties the service, the task and the driver slot, in this order.
  function Empty(slots: Slots, done: nat): Slots {
    match done
    case 0 => slots.(service := Take(slots.service))
    case 1 => slots.(task := Take(slots.task))
    case _ => slots.(driver := Take(slots.driver))
  }

  // ----- Calls, one slot at a time ---------------------------------------------

  /**
   * A call in progress and how many slots it has dealt with.  `set_realtime_online`
   * and `set_realtime_active` read the service slot and then, if the new value is
   * true, the driver slot; `told` is the service that was there.
   */
  datatype Call =
    | Starting(done: nat)
    | Stopping(done: nat)
    | Setting(done: nat, on: bool, told: Option<nat>)

  /** Whom a finished call of this kind has told, and whom it has notified. */
  datatype Edge = Edge(on: bool, told: Option<nat>, notified: Option<nat>)

  datatype State = State(slots: Slots, calls: map<nat, Call>, starts: set<nat>, edges: map<nat, Edge>, next: nat)

  datatype Action = BeginStart | BeginStop | BeginSetting(on: bool) | Advance(id: nat)

  const INIT := State(Slots(Slot(None, {}), Slot(None, {}), Slot(None, {})), map[], {}, map[], 0)

  /** One slot further; None when that was the last. */
  function NextCall(c: Call, slots: Slots): Option<Call> {
    match c
    case Starting(done) => if done < 2 then Some(Starting(done + 1)) else None
    case Stopping(done) => if done < 2 then Some(Stopping(done + 1)) else None
    case Setting(done, on, _) => if done == 0 then Some(Setting(1, on, slots.service.held)) else None
  }

  function NextSlots(c: Call, id: nat, slots: Slots): Slots {
    match c
    case Starting(done) => Fill(slots, id, done)
    case Stopping(done) => Empty(slots, done)
    case Setting(_, _, _) => slots
  }

  function Apply(s: State, a: Action): State {
    match a
    case BeginStart => s.(calls := s.calls[s.next := Starting(0)], starts := s.starts + {s.next}, next := s.next + 1)
    case BeginStop => s.(calls := s.calls[s.next := Stopping(0)], next := s.next + 1)
    case BeginSetting(on) => s.(calls := s.calls[s.next := Setting(0, on, None)], next := s.next + 1)
    case Advance(id) =>
      if id !in s.calls then s
      else
        var c := s.calls[id];
        var next := NextCall(c, s.slots);
        s.(slots := NextSlots(c, id, s.slots),
           calls := if next.Some? then s.calls[id := next.value] else s.calls - {id},
           edges := if c.Setting? && next.None?
                    then s.edges[id := Edge(c.on, c.told, if c.on then s.slots.driver.held else None)] else s.edges)
  }

  function RunFrom(s: State, actions: seq<Action>): State
    decreases |actions|
  {
    if actions == [] then s else RunFrom(Apply(s, actions[0]), actions[1..])
  }

  // ----- Every interleaving ----------------------------------------------------

  /** Made by a start in progress that has not put it in its slot. */
  function Local(s: State, place: nat): set<nat> {
    set id | id in s.calls && s.calls[id].Starting? && s.calls[id].done <= place
  }

  /** Each of the made ones is stopped, in the slot, or local: exactly one of the three. */
  predicate Accounted(slot: Slot, local: set<nat>, made: set<nat>) {
    made == slot.stopped + Held(slot) + local && slot.stopped !! Held(slot) !! local
  }

  predicate CallsValid(s: State) {
    && (forall id <- s.calls :: id < s.next && s.calls[id].done <= 2 && (s.calls[id].Starting? ==> id in s.starts))
    && (forall id <- s.starts :: id < s.next)
  }

  predicate Inv(s: State) {
    && CallsValid(s)
    && Accounted(s.slots.task, Local(s, 0), s.starts)
    && Accounted(s.slots.service, Local(s, 1), s.starts)
    && Accounted(s.slots.driver, Local(s, 2), s.starts)
  }

  lemma BeginKeeps(s: State, a: Action)
    requires Inv(s) && !a.Advance?
    ensures Inv(Apply(s, a))
  {
    var made := if a.BeginStart? then {s.next} else {};
    assert s.next !in s.starts;
    forall place: nat ensures Local(Apply(s, a), place) == Local(s, place) + made {
    }
  }

  lemma AdvanceKeeps(s: State, id: nat)
    requires Inv(s)
    ensures Inv(Apply(s, Advance(id)))
  {
    if id in s.calls {
      var c, t := s.calls[id], Apply(s, Advance(id));
      var placed := if c.Starting? then {id} else {};
      forall place: nat | place <= 2
        ensures Local(t, place) == if c.Starting? && place == c.done then Local(s, place) - placed else Local(s, place)
      {
      }
    }
  }

  lemma {:induction false} InvAlways(s: State, actions: seq<Action>)
    requires Inv(s)
    ensures Inv(RunFrom(s, actions))
    decreases |actions|
  {
    if actions != [] {
      if actions[0].Advance? {
        AdvanceKeeps(s, actions[0].id);
      } else {
        BeginKeeps(s, actions[0]);
      }
      InvAlways(Apply(s, actions[0]), actions[1..]);
    }
  }

  /** In every interleaving nothing a start made is lost: it is stopped, in its slot, or about to be put there. */
  lemma EachAccountedFor(actions: seq<Action>)
    ensures var s := RunFrom(INIT, actions);
      && Accounted(s.slots.task, Local(s, 0), s.starts)
      && Accounted(s.slots.service, Local(s, 1), s.starts)
      && Accounted(s.slots.driver, Local(s, 2), s.starts)
  {
    InvAlways(INIT, actions);
  }

  /** Once no call is in progress, everything made is stopped except what the slots hold. */
  lemma AtMostOneRunning(actions: seq<Action>)
    requires RunFrom(INIT, actions).calls == map[]
    ensures var s := RunFrom(INIT, actions);
      && s.starts - s.slots.task.stopped == Held(s.slots.task)
      && s.starts - s.slots.service.stopped == Held(s.slots.service)
      && s.starts - s.slots.driver.stopped == Held(s.slots.driver)
  {
    var s := RunFrom(INIT, actions);
    InvAlways(INIT, actions);
    assert Local(s, 0) == {} && Local(s, 1) == {} && Local(s, 2) == {};
  }

  // ----- Calls that do not overlap ---------------------------------------------

  predicate Quiet(s: State) {
    Inv(s) && s.calls == map[]
  }

  /** All three slots hold `g`, or nothing, and the rest of what was made is stopped. */
  predicate AllHold(s: State, g: Option<nat>) {
    && s.slots.task.held == s.slots.service.held == s.slots.driver.held == g
    && s.slots.task.stopped == s.slots.service.stopped == s.slots.driver.stopped
       == s.starts - (if g.Some? then {g.value} else {})
  }

  function Alone(begin: Action, id: nat): seq<Action> {
    [begin, Advance(id), Advance(id), Advance(id)]
  }

  function Started(slots: Slots, g: nat): Slots {
    Fill(Fill(Fill(slots, g, 0), g, 1), g, 2)
  }

  function Stopped(slots: Slots): Slots {
    Empty(Empty(Empty(slots, 0), 1), 2)
  }

  /** The slots after a whole call that nobody interrupts. */
  function After(slots: Slots, begin: Action, id: nat): Slots {
    match begin
    case BeginStart => Started(slots, id)
    case BeginStop => Stopped(slots)
    case _ => slots
  }

  lemma AloneEffect(s: State, begin: Action)
    requires Quiet(s) && !begin.Advance?
    ensures var t := RunFrom(s, Alone(begin, s.next));
      && t.calls == map[] && t.next == s.next + 1 && t.slots == After(s.slots, begin, s.next)
      && t.starts == (if begin.BeginStart? then s.starts + {s.next} else s.starts)
      && t.edges == match begin
                    case BeginSetting(on) =>
                      s.edges[s.next := Edge(on, s.slots.service.held, if on then s.slots.driver.held else None)]
                    case _ => s.edges
  {
    var a, id := Alone(begin, s.next), s.next;
    var s1 := Apply(s, begin);
    var s2 := Apply(s1, Advance(id));
    var s3 := Apply(s2, Advance(id));
    var s4 := Apply(s3, Advance(id));
    assert s4.calls == map[];
    assert a[1..] == [Advance(id), Advance(id), Advance(id)];
    assert a[1..][1..] == [Advance(id), Advance(id)];
    assert a[1..][1..][1..] == [Advance(id)];
    assert RunFrom(s3, [Advance(id)]) == s4;
    assert RunFrom(s2, a[1..][1..]) == s4;
    assert RunFrom(s1, a[1..]) == s4;
  }

  /**
   * A start or a stop that runs alone leaves the three slots in step, whatever
   * earlier overlapping calls did to them.
   */
  lemma AloneAligns(s: State, begin: Action)
    requires Quiet(s) && (begin.BeginStart? || begin.BeginStop?)
    ensures var t := RunFrom(s, Alone(begin, s.next));
      Quiet(t) && AllHold(t, if begin.BeginStart? then Some(s.next) else None)
  {
    var t := RunFrom(s, Alone(begin, s.next));
    InvAlways(s, Alone(begin, s.next));
    AloneEffect(s, begin);
    assert Local(t, 0) == {} && Local(t, 1) == {} && Local(t, 2) == {};
  }

  /** The state after whole calls, one after the other. */
  function AfterCalls(begins: seq<Action>): State {
    if begins == [] then INIT
    else
      var s := AfterCalls(begins[..|begins| - 1]);
      RunFrom(s, Alone(begins[|begins| - 1], s.next))
  }

  /** Which of these calls is the start that is still in force. */
  function InForce(begins: seq<Action>): Option<nat> {
    if begins == [] then None
    else
      match begins[|begins| - 1]
      case BeginStart => Some(|begins| - 1)
      case BeginStop => None
      case _ => InForce(begins[..|begins| - 1])
  }

  /** For calls that do not overlap: all three slots hold what the start in force made, or all are empty. */
  lemma {:induction false} FilledTogether(begins: seq<Action>)
    requires forall b <- begins :: !b.Advance?
    ensures Quiet(AfterCalls(begins)) && AfterCalls(begins).next == |begins|
    ensures AllHold(AfterCalls(begins), InForce(begins))
    decreases |begins|
  {
    if begins != [] {
      var front, begin := begins[..|begins| - 1], begins[|begins| - 1];
      var s := AfterCalls(front);
      FilledTogether(front);
      AloneEffect(s, begin);
      InvAlways(s, Alone(begin, s.next));
      if !begin.BeginSetting? {
        AloneAligns(s, begin);
      }
    }
  }

  /** A start that is interrupted has replaced the task first and the service second. */
  lemma StartOrder(s: State)
    requires Quiet(s)
    ensures var n := s.next;
      var first, second := RunFrom(s, [BeginStart, Advance(n)]).slots, RunFrom(s, [BeginStart, Advance(n), Advance(n)]).slots;
      && first.task.held == Some(n) && first.service == s.slots.service && first.driver == s.slots.driver
      && second.service.held == Some(n) && second.task == first.task && second.driver == s.slots.driver
  {
    FirstTwo(s, BeginStart, s.next);
  }

  /** A stop that is interrupted has emptied the service first and the task second. */
  lemma StopOrder(s: State)
    requires Quiet(s)
    ensures var n := s.next;
      var first, second := RunFrom(s, [BeginStop, Advance(n)]).slots, RunFrom(s, [BeginStop, Advance(n), Advance(n)]).slots;
      && first.service.held == None && first.task == s.slots.task && first.driver == s.slots.driver
      && second.task.held == None && second.service == first.service && second.driver == s.slots.driver
  {
    FirstTwo(s, BeginStop, s.next);
  }

  lemma FirstTwo(s: State, begin: Action, n: nat)
    ensures RunFrom(s, [begin, Advance(n)]) == Apply(Apply(s, begin), Advance(n))
    ensures RunFrom(s, [begin, Advance(n), Advance(n)]) == Apply(Apply(Apply(s, begin), Advance(n)), Advance(n))
  {
    var none: seq<Action> := [];
    TwoSteps(s, begin, Advance(n), Apply(Apply(s, begin), Advance(n)), none);
    TwoSteps(s, begin, Advance(n), Apply(Apply(s, begin), Advance(n)), [Advance(n)]);
    assert [begin, Advance(n)] + none == [begin, Advance(n)];
    assert [begin, Advance(n)] + [Advance(n)] == [begin, Advance(n), Advance(n)];
    assert [Advance(n)][1..] == none;
  }

  // ----- Lifecycle edges -------------------------------------------------------

  /**
   * An edge that overlaps no other call tells the service of the start in force and,
   * if it is true, notifies the driver of the same start; with none in force, nobody.
   */
  lemma EdgeReachesOne(begins: seq<Action>, on: bool)
    requires forall b <- begins :: !b.Advance?
    ensures var live := InForce(begins);
      |begins| in AfterCalls(begins + [BeginSetting(on)]).edges
      && AfterCalls(begins + [BeginSetting(on)]).edges[|begins|] == Edge(on, live, if on then live else None)
  {
    var all := begins + [BeginSetting(on)];
    assert all[..|all| - 1] == begins;
    FilledTogether(begins);
    AloneEffect(AfterCalls(begins), BeginSetting(on));
  }

  function Either(live: Option<nat>, n: nat): set<Option<nat>> {
    {live, Some(n)}
  }

  predicate ReachesEither(e: Edge, live: Option<nat>, n: nat) {
    e.told in Either(live, n) && if e.on then e.notified in Either(live, n) else e.notified.None?
  }

  /** Call `n` is a start and call `n + 1` an edge that has seen, if anything, the old service or the new. */
  predicate StartOrEdge(c: Call, id: nat, live: Option<nat>, n: nat) {
    match c
    case Starting(_) => id == n
    case Setting(done, _, told) => id == n + 1 && (done == 0 || told in Either(live, n))
    case Stopping(_) => false
  }

  /** Each slot holds the old or the new, and so do the calls in progress and the edge if it is done. */
  predicate OldOrNew(s: State, live: Option<nat>, n: nat) {
    && s.slots.service.held in Either(live, n) && s.slots.driver.held in Either(live, n)
    && (forall id <- s.calls :: StartOrEdge(s.calls[id], id, live, n))
    && (n + 1 in s.edges ==> ReachesEither(s.edges[n + 1], live, n))
  }

  lemma OldOrNewStep(s: State, id: nat, live: Option<nat>, n: nat)
    requires OldOrNew(s, live, n)
    ensures OldOrNew(Apply(s, Advance(id)), live, n)
  {
    if id in s.calls {
      assert StartOrEdge(s.calls[id], id, live, n);
    }
  }

  lemma {:induction false} OldOrNewKept(s: State, actions: seq<Action>, live: Option<nat>, n: nat)
    requires OldOrNew(s, live, n) && forall a <- actions :: a.Advance?
    ensures OldOrNew(RunFrom(s, actions), live, n)
    decreases |actions|
  {
    if actions != [] {
      OldOrNewStep(s, actions[0].id, live, n);
      OldOrNewKept(Apply(s, actions[0]), actions[1..], live, n);
    }
  }

  /**
   * However an edge and one start interleave, the edge tells the service that was in
   * force or the new one and, if it is true, notifies the driver that was in force or
   * the new one; a false edge notifies nobody.
   */
  lemma EdgeDuringStart(begins: seq<Action>, on: bool, actions: seq<Action>)
    requires (forall b <- begins :: !b.Advance?) && forall a <- actions :: a.Advance?
    ensures var n, t := |begins|, RunFrom(AfterCalls(begins), [BeginStart, BeginSetting(on)] + actions);
      n + 1 in t.edges ==> ReachesEither(t.edges[n + 1], InForce(begins), n)
  {
    var s, n := AfterCalls(begins), |begins|;
    FilledTogether(begins);
    EdgesAreOld(begins);
    var t := Apply(Apply(s, BeginStart), BeginSetting(on));
    TwoSteps(s, BeginStart, BeginSetting(on), t, actions);
    OldOrNewKept(t, actions, InForce(begins), n);
  }

  lemma {:induction false} EdgesAreOld(begins: seq<Action>)
    requires forall b <- begins :: !b.Advance?
    ensures forall id <- AfterCalls(begins).edges :: id < |begins|
    decreases |begins|
  {
    if begins != [] {
      var front := begins[..|begins| - 1];
      FilledTogether(front);
      EdgesAreOld(front);
      AloneEffect(AfterCalls(front), begins[|begins| - 1]);
    }
  }

  /** It can tell the new service and notify the old driver, which the start goes on to stop. */
  lemma NewServiceOldDriver(begins: seq<Action>) returns (actions: seq<Action>)
    requires forall b <- begins :: !b.Advance?
    ensures var n, t := |begins|, RunFrom(AfterCalls(begins), actions);
      n + 1 in t.edges && t.edges[n + 1] == Edge(true, Some(n), InForce(begins))
  {
    var s, n, none: seq<Action> := AfterCalls(begins), |begins|, [];
    FilledTogether(begins);
    var begun := Apply(Apply(s, BeginStart), BeginSetting(true));
    var filled := Apply(Apply(begun, Advance(n)), Advance(n));
    var read := [Advance(n + 1), Advance(n + 1)] + none;
    actions := [BeginStart, BeginSetting(true)] + ([Advance(n), Advance(n)] + read);
    TwoSteps(s, BeginStart, BeginSetting(true), begun, [Advance(n), Advance(n)] + read);
    TwoSteps(begun, Advance(n), Advance(n), filled, read);
    TwoSteps(filled, Advance(n + 1), Advance(n + 1), Apply(Apply(filled, Advance(n + 1)), Advance(n + 1)), none);
  }

  /** And it can tell the old service and notify the new driver. */
  lemma OldServiceNewDriver(begins: seq<Action>) returns (actions: seq<Action>)
    requires forall b <- begins :: !b.Advance?
    ensures var n, t := |begins|, RunFrom(AfterCalls(begins), actions);
      n + 1 in t.edges && t.edges[n + 1] == Edge(true, InForce(begins), Some(n))
  {
    var s, n, none: seq<Action> := AfterCalls(begins), |begins|, [];
    FilledTogether(begins);
    var begun := Apply(Apply(s, BeginStart), BeginSetting(true));
    var told := Apply(Apply(begun, Advance(n + 1)), Advance(n));
    var filled := Apply(Apply(told, Advance(n)), Advance(n));
    var read := [Advance(n + 1), Advance(n + 1)] + none;
    actions := [BeginStart, BeginSetting(true)] + ([Advance(n + 1), Advance(n)] + ([Advance(n), Advance(n)] + read));
    TwoSteps(s, BeginStart, BeginSetting(true), begun, [Advance(n + 1), Advance(n)] + ([Advance(n), Advance(n)] + read));
    TwoSteps(begun, Advance(n + 1), Advance(n), told, [Advance(n), Advance(n)] + read);
    TwoSteps(told, Advance(n), Advance(n), filled, read);
    TwoSteps(filled, Advance(n + 1), Advance(n + 1), Apply(Apply(filled, Advance(n + 1)), Advance(n + 1)), none);
  }

  // ----- Overlapping starts ----------------------------------------------------

  /**
   * Two starts that overlap can finish out of step: each has lost its task or its
   * service, so neither of the two subscriptions is served.
   */
  lemma OverlapMismatch()
    ensures exists actions ::
      var s := RunFrom(INIT, actions);
      s.calls == map[] && s.slots.task == Slot(Some(1), {0}) && s.slots.service == Slot(Some(0), {1})
  {
    var none: seq<Action> := [];
    var s2 := State(INIT.slots, map[0 := Starting(0), 1 := Starting(0)], {0, 1}, map[], 2);
    var s4 := s2.(calls := map[0 := Starting(1), 1 := Starting(1)],
                  slots := INIT.slots.(task := Slot(Some(1), {0})));
    var s6 := s4.(calls := map[0 := Starting(2), 1 := Starting(2)],
                  slots := s4.slots.(service := Slot(Some(0), {1})));
    var drivers := [Advance(0), Advance(1)] + none;
    var services := [Advance(1), Advance(0)] + drivers;
    TwoSteps(INIT, BeginStart, BeginStart, s2, [Advance(0), Advance(1)] + services);
    TwoSteps(s2, Advance(0), Advance(1), s4, services);
    TwoSteps(s4, Advance(1), Advance(0), s6, drivers);
    var last := Apply(Apply(s6, Advance(0)), Advance(1));
    assert last.calls == map[];
    TwoSteps(s6, Advance(0), Advance(1), last, none);
  }

  lemma TwoSteps(s: State, a: Action, b: Action, t: State, rest: seq<Action>)
    requires Apply(Apply(s, a), b) == t
    ensures RunFrom(s, [a, b] + rest) == RunFrom(t, rest)
  {
    var all := [a, b] + rest;
    assert all[1..] == [b] + rest && all[1..][1..] == rest;
    assert RunFrom(Apply(s, a), all[1..]) == RunFrom(t, all[1..][1..]);
  }

  // ----- The wallet's fields ---------------------------------------------------

  class RealtimeSlots {
    var task: Slot
    var service: Slot
    var driver: Slot

    ghost function View(): Slots
      reads this
    {
      Slots(task, service, driver)
    }

    constructor ()
      ensures View() == INIT.slots
    {
      task, service, driver := Slot(None, {}), Slot(None, {}), Slot(None, {});
    }

    method StartWalletEvents(g: nat)
      modifies this
      ensures View() == Started(old(View()), g)
    {
      task := Replace(task, g);
      service := Replace(service, g);
      driver := Replace(driver, g);
    }

    method StopWalletEvents()
      modifies this
      ensures View() == Stopped(old(View()))
    {
      service := Take(service);
      task := Take(task);
      driver := Take(driver);
    }

    /** `set_realtime_online` and `set_realtime_active`, for every value and not only a change of it. */
    method SetRealtime(on: bool) returns (edge: Edge)
      ensures edge == Edge(on, service.held, if on then driver.held else None)
    {
      var told, notified := service.held, None;
      if on {
        notified := driver.held;
      }
      return Edge(on, told, notified);
    }
  }
}
