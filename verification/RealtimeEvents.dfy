/** The events the realtime client publishes, and how the resumption driver reads them. */
module RealtimeEvents {
  import opened Wrappers

  datatype RealtimeStatus =
    Idle | Connecting | Subscribed | Reconnecting | ErrorStatus | Closed | TerminalError

  // `Event` and `Change` carry the same broadcast; the typed payload of a
  // `Change` is a function of the pair, so the pair stands for it here.
  datatype RealtimeEvent =
    | Connected
    | Event(name: string, payloadJson: string)
    | Change(name: string, payloadJson: string)
    | StatusChanged(status: RealtimeStatus)
    | Error(message: string)

  datatype TriggerReason =
    InitialStart | RealtimeConnected | RealtimeRow | Foreground | FallbackTick | Coalesced

  predicate IsRelevantEvent(name: string) {
    || name == "CASHU_SEND_SWAP_UPDATED"
    || name == "CASHU_RECEIVE_SWAP_UPDATED"
    || name == "CASHU_RECEIVE_QUOTE_UPDATED"
    || name == "CASHU_SEND_QUOTE_UPDATED"
  }

  /** The trigger an event asks for when the driver is not paused. */
  function TriggerOf(ev: RealtimeEvent): Option<TriggerReason> {
    match ev
    case Connected => Some(RealtimeConnected)
    case Event(name, _) => if IsRelevantEvent(name) then Some(RealtimeRow) else None
    case _ => None
  }

  /** The driver's `connected` flag after one event. */
  function Track(connected: bool, ev: RealtimeEvent): bool {
    match ev
    case Connected => true
    case StatusChanged(status) => status == Subscribed
    case _ => connected
  }

  function TrackAll(connected: bool, evs: seq<RealtimeEvent>): bool
    decreases |evs|
  {
    if evs == [] then connected else TrackAll(Track(connected, evs[0]), evs[1..])
  }

  lemma {:induction false} TrackAppend(connected: bool, a: seq<RealtimeEvent>, b: seq<RealtimeEvent>)
    ensures TrackAll(connected, a + b) == TrackAll(TrackAll(connected, a), b)
    decreases |a|
  {
    if a == [] {
      assert a + b == b;
    } else {
      assert (a + b)[1..] == a[1..] + b;
      TrackAppend(Track(connected, a[0]), a[1..], b);
    }
  }

  // ----- What the driver reads in an event -------------------------------------

  const DRIVER_ROW_EVENTS := {
    "CASHU_SEND_SWAP_UPDATED", "CASHU_RECEIVE_SWAP_UPDATED", "CASHU_RECEIVE_QUOTE_UPDATED", "CASHU_SEND_QUOTE_UPDATED"
  }

  /** A join asks for a sweep, and so does an update of one of the four kinds of row; nothing else does. */
  lemma TriggerOfIff(ev: RealtimeEvent, reason: TriggerReason)
    ensures TriggerOf(ev) == Some(reason) <==>
            (ev == Connected && reason == RealtimeConnected)
            || (ev.Event? && ev.name in DRIVER_ROW_EVENTS && reason == RealtimeRow)
  {
  }

  /** A join or the status Subscribed sets the flag, every other status clears it, and nothing else touches it. */
  lemma TrackIff(connected: bool, ev: RealtimeEvent)
    ensures Track(connected, ev) <==>
            ev == Connected || ev == StatusChanged(Subscribed) || (connected && !ev.StatusChanged?)
  {
  }
}
