/**
 * The code of the trigger task that runs between two awaits, as it is written:
 * methods that store to the shared atomics in place and a loop that empties the
 * event receiver.  Each method does what the step machine does when nobody
 * interferes.
 */
module DriverShared {
  import opened RealtimeEvents
  import Task = DriverTask

  datatype Received = Got(ev: RealtimeEvent) | Empty | Overflowed | ReceiverClosed

  class EventReceiver {
    var queue: Task.Receiver

    constructor (queue: Task.Receiver)
      ensures this.queue == queue
    {
      this.queue := queue;
    }

    method TryRecv() returns (r: Received)
      modifies this
      ensures if old(queue.lagged) then r == Overflowed && queue == old(queue).(lagged := false)
              else if old(queue.events) != [] then
                r == Got(old(queue.events)[0]) && queue == old(queue).(events := old(queue.events)[1..])
              else r == (if old(queue.closed) then ReceiverClosed else Empty) && queue == old(queue)
    {
      if queue.lagged {
        queue := queue.(lagged := false);
        r := Overflowed;
      } else if queue.events != [] {
        r := Got(queue.events[0]);
        queue := queue.(events := queue.events[1..]);
      } else {
        r := if queue.closed then ReceiverClosed else Empty;
      }
    }
  }

  class Driver {
    var stop: bool
    var pending: bool
    var paused: bool
    var sweepCount: nat
    var reasonsSeen: set<TriggerReason>
    var listening: bool
    var pulse: bool
    var connected: bool
    const rx: EventReceiver

    function View(): Task.Shared
      reads this
    {
      Task.Shared(stop, pending, paused, sweepCount, reasonsSeen, listening, pulse)
    }

    /** `start()`. */
    constructor (rx: EventReceiver)
      ensures View() == Task.Init(false).state.shared && !connected && this.rx == rx
    {
      this.rx := rx;
      stop, pending, paused, sweepCount, reasonsSeen := false, false, false, 0, {};
      listening, pulse, connected := false, false, false;
      new;
      Mark(InitialStart);
    }

    method Poke()
      modifies this`pulse
      ensures View() == Task.Poked(old(View()))
    {
      pulse := pulse || listening;
    }

    method Mark(reason: TriggerReason)
      modifies this`reasonsSeen, this`pending, this`pulse
      ensures View() == Task.Mark(old(View()), reason)
    {
      reasonsSeen := reasonsSeen + {reason};
      pending := true;
      Poke();
    }

    method Stop()
      modifies this`stop, this`pulse
      ensures View() == Task.CallShared(old(View()), Task.StoreStop)
    {
      stop := true;
      Poke();
    }

    method NotifyForeground()
      modifies this`paused, this`reasonsSeen, this`pending, this`pulse
      ensures View() == Task.CallShared(old(View()), Task.ClearPaused)
    {
      ghost var before := View();
      paused := false;
      Mark(Foreground);
      assert Task.CallShared(before, Task.ClearPaused) ==
             Task.CallShared(before.(paused := false, reasons := before.reasons + {Foreground}), Task.MarkForeground);
    }

    method HandleRealtimeEvent(ev: RealtimeEvent)
      modifies this
      ensures View() == Task.HandleOne(old(View()), ev) && connected == Track(old(connected), ev)
    {
      match ev
      case Connected =>
        connected := true;
        if !paused {
          Mark(RealtimeConnected);
        }
      case Event(name, _) =>
        if IsRelevantEvent(name) && !paused {
          Mark(RealtimeRow);
        }
      case StatusChanged(status) =>
        connected := status == Subscribed;
      case Error(_) =>
      case Change(_, _) =>
    }

    method DrainRealtimeEvents()
      modifies this, rx
      ensures View() == Task.Drained(old(View()), old(rx.queue))
      ensures connected == TrackAll(old(connected), old(rx.queue.events))
      ensures rx.queue == old(rx.queue).(events := [], lagged := false)
    {
      while true
        invariant Task.Drained(View(), rx.queue) == Task.Drained(old(View()), old(rx.queue))
        invariant TrackAll(connected, rx.queue.events) == TrackAll(old(connected), old(rx.queue.events))
        invariant rx.queue.closed == old(rx.queue.closed)
        decreases |rx.queue.events|, rx.queue.lagged
      {
        var received := rx.TryRecv();
        match received
        case Got(ev) => HandleRealtimeEvent(ev);
        case Overflowed =>
          if !paused {
            Mark(RealtimeRow);
          }
        case Empty => break;
        case ReceiverClosed => break;
      }
    }

    /** `run_one_sweep`, with the sweep's outcome supplied by the world. */
    method RunOneSweep(outcome: Task.Outcome)
      modifies this`pending, this`sweepCount, this`paused
      ensures View() == Task.Swept(old(View()), outcome)
    {
      pending := false;
      sweepCount := sweepCount + 1;
      if outcome == Task.SweepUnauthenticated {
        paused := true;
      }
    }
  }
}
