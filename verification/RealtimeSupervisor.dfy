/**
 * The supervisor that keeps the channel alive: one connection after another, and the
 * status it publishes when one of them ends.
 */
module RealtimeSupervisor {
  import opened PhoenixClient
  import opened PhoenixCodec
  import opened RealtimeEvents
  import opened Wrappers

  // Consecutive join rejections before the supervisor gives up.
  const MAX_JOIN_REJECT_ATTEMPTS := 9

  /** How a connection attempt fares. */
  datatype Dial = Dial(connects: bool, token: Option<string>, delivered: bool)

  /**
   * What wakes the serving loop: an answer of the transport, the heartbeat timer, or a
   * pulse from `set_online`, `set_active` or `stop`.
   */
  datatype Wake =
    | Received(item: Option<Inbound>)
    | HeartbeatDue(delivered: bool, token: Option<string>, tokenDelivered: bool)
    | Pulse

  /** One connection.  Whatever wakes are not listed, a pulse comes after them. */
  datatype Turn = Turn(dial: Dial, wakes: seq<Wake>)

  datatype Ended = Ended(events: seq<RealtimeEvent>, result: Result<(), ClientError>)

  /** One wake: what it publishes, and how the loop goes on. */
  function WakeOnce(text: Text, joinRef: Option<string>, wake: Wake): (seq<RealtimeEvent>, Result<bool, ClientError>) {
    match wake
    case Pulse => ([], Ok(false))
    case HeartbeatDue(delivered, token, tokenDelivered) =>
      var r := HeartbeatResult(joinRef.Some?, delivered, token, tokenDelivered);
      ([], if r.Ok? then Ok(true) else Err(r.error))
    case Received(item) =>
      var action := Route(text, joinRef, item);
      if action.Err? then ([], Err(action.error)) else (Emits(action.value), ResultOf(action.value))
  }

  function ServeWakes(text: Text, joinRef: Option<string>, wakes: seq<Wake>): Ended
    decreases |wakes|
  {
    if wakes == [] then Ended([], Ok(()))
    else
      var (events, more) := WakeOnce(text, joinRef, wakes[0]);
      match more
      case Err(e) => Ended(events, Err(e))
      case Ok(false) => Ended(events, Ok(()))
      case Ok(true) =>
        var rest := ServeWakes(text, joinRef, wakes[1..]);
        Ended(events + rest.events, rest.result)
  }

  /** Every connection has a client of its own, whose first reference is 1. */
  function Connection(text: Text, turn: Turn): Ended {
    var joined := JoinResult(turn.dial.connects, turn.dial.token, turn.dial.delivered);
    if joined.Err? then Ended([StatusChanged(Connecting)], joined)
    else
      var served := ServeWakes(text, Some(Decimal(1)), turn.wakes);
      Ended([StatusChanged(Connecting)] + served.events, served.result)
  }

  /** The status published when a connection ends, and the rejections counted from then on. */
  function Aftermath(result: Result<(), ClientError>, rejects: nat): (seq<RealtimeEvent>, nat) {
    match result
    case Ok(_) => ([], 0)
    case Err(JoinRejected(_)) =>
      if rejects + 1 >= MAX_JOIN_REJECT_ATTEMPTS then ([StatusChanged(TerminalError)], 0)
      else ([StatusChanged(Reconnecting)], rejects + 1)
    case Err(_) => ([StatusChanged(Reconnecting)], rejects)
  }

  /** All that was published over these connections, and the rejections counted. */
  datatype Record = Record(events: seq<RealtimeEvent>, rejects: nat)

  function NextRecord(text: Text, before: Record, turn: Turn): Record {
    var ended := Connection(text, turn);
    var (status, rejects) := Aftermath(ended.result, before.rejects);
    Record(before.events + ended.events + status, rejects)
  }

  function Life(text: Text, turns: seq<Turn>): Record {
    if turns == [] then Record([], 0)
    else NextRecord(text, Life(text, turns[..|turns| - 1]), turns[|turns| - 1])
  }

  // ----- The code --------------------------------------------------------------

  /** `serve_with_heartbeat`. */
  method ServeWithHeartbeat(client: Client, text: Text, turn: Turn) returns (r: Result<(), ClientError>)
    requires client.Valid() && client.refs == 0 && client.events == []
    modifies client
    ensures Ended(client.events, r) == Connection(text, turn)
  {
    var joined := client.ConnectAndJoin(turn.dial.connects, turn.dial.token, turn.dial.delivered);
    if joined.Err? {
      return joined;
    }
    ghost var all := ServeWakes(text, client.joinRef, turn.wakes);
    var i := 0;
    assert turn.wakes[0..] == turn.wakes;
    while i < |turn.wakes|
      invariant 0 <= i <= |turn.wakes| && client.Valid() && client.joinRef == Some(Decimal(1))
      invariant Remaining([StatusChanged(Connecting)] + all.events, all.result, client.events,
                          ServeWakes(text, client.joinRef, turn.wakes[i..]))
    {
      ghost var now := client.events;
      var wake := turn.wakes[i];
      UnfoldWakes(text, client.joinRef, turn.wakes, i, now);
      var step := Wakes(client, text, wake);
      if step.Err? {
        return Err(step.error);
      }
      if !step.value {
        return Ok(());
      }
      i := i + 1;
    }
    return Ok(());
  }

  /** One turn of the select. */
  method Wakes(client: Client, text: Text, wake: Wake) returns (more: Result<bool, ClientError>)
    requires client.Valid()
    modifies client
    ensures client.Valid() && client.joinRef == old(client.joinRef)
    ensures var (events, m) := WakeOnce(text, client.joinRef, wake);
      client.events == old(client.events) + events && more == m
  {
    match wake
    case Pulse =>
      return Ok(false);
    case HeartbeatDue(delivered, token, tokenDelivered) =>
      var sent := client.SendHeartbeat(delivered, token, tokenDelivered);
      return if sent.Ok? then Ok(true) else Err(sent.error);
    case Received(item) =>
      more := client.ServeStep(text, item);
  }

  /** What is published so far and what the rest will publish make up the whole. */
  predicate Remaining(whole: seq<RealtimeEvent>, result: Result<(), ClientError>, sofar: seq<RealtimeEvent>, rest: Ended) {
    whole == sofar + rest.events && result == rest.result
  }

  lemma UnfoldWakes(text: Text, joinRef: Option<string>, wakes: seq<Wake>, i: nat, now: seq<RealtimeEvent>)
    requires i < |wakes|
    ensures var (events, more) := WakeOnce(text, joinRef, wakes[i]);
      var all, rest := ServeWakes(text, joinRef, wakes[i..]), ServeWakes(text, joinRef, wakes[i + 1..]);
      match more
      case Err(e) => all == Ended(events, Err(e))
      case Ok(false) => all == Ended(events, Ok(()))
      case Ok(true) => Remaining(now + all.events, all.result, now + events, rest)
  {
    assert wakes[i..][1..] == wakes[i + 1..] && wakes[i..][0] == wakes[i];
    var (events, more) := WakeOnce(text, joinRef, wakes[i]);
    if more == Ok(true) {
      Associate(now, events, ServeWakes(text, joinRef, wakes[i + 1..]).events);
    }
  }

  lemma Associate<T>(a: seq<T>, b: seq<T>, c: seq<T>)
    ensures a + (b + c) == (a + b) + c
  {
  }

  /** The part of the service that outlives a connection. */
  class Supervisor {
    var events: seq<RealtimeEvent>
    var joinRejects: nat
    var terminal: bool

    constructor ()
      ensures Record(events, joinRejects) == Record([], 0) && !terminal
    {
      events, joinRejects, terminal := [], 0, false;
    }

    /** One iteration of `run_inner` that no `stop` ends. */
    method RunConnection(text: Text, userId: string, turn: Turn)
      modifies this
      ensures Record(events, joinRejects) == NextRecord(text, old(Record(events, joinRejects)), turn)
      ensures var status := Aftermath(Connection(text, turn).result, old(joinRejects)).0;
        terminal <==> old(terminal) || status == [StatusChanged(TerminalError)]
    {
      var client := new Client(userId);
      var result := ServeWithHeartbeat(client, text, turn);
      events := events + client.events;
      match result
      case Ok(_) =>
        joinRejects := 0;
      case Err(JoinRejected(_)) =>
        joinRejects := joinRejects + 1;
        if joinRejects >= MAX_JOIN_REJECT_ATTEMPTS {
          terminal := true;
          events := events + [StatusChanged(TerminalError)];
          joinRejects := 0;
        } else {
          events := events + [StatusChanged(Reconnecting)];
        }
      case Err(_) =>
        events := events + [StatusChanged(Reconnecting)];
    }

    /** The end of `run_inner`. */
    method Close()
      modifies this`events
      ensures events == old(events) + [StatusChanged(Closed)]
    {
      events := events + [StatusChanged(Closed)];
    }
  }

  // ----- What the driver makes of it -------------------------------------------

  lemma {:induction false} WakesAreWord(text: Text, joinRef: Option<string>, wakes: seq<Wake>)
    ensures var served := ServeWakes(text, joinRef, wakes);
      ServingWord(served.events) && (served.result.Ok? ==> StatusChanged(Reconnecting) !in served.events)
    decreases |wakes|
  {
    if wakes != [] {
      var (events, more) := WakeOnce(text, joinRef, wakes[0]);
      if more == Ok(true) {
        WakesAreWord(text, joinRef, wakes[1..]);
        var rest := ServeWakes(text, joinRef, wakes[1..]).events;
        if wakes[0].Received? {
          Prepended(Route(text, joinRef, wakes[0].item).value, rest);
        } else {
          assert events + rest == rest;
        }
      }
    }
  }

  /** A connection publishes a cycle word, without a Reconnecting of its own if it was not the channel that ended it. */
  lemma ConnectionIsCycle(text: Text, turn: Turn)
    ensures var ended := Connection(text, turn);
      CycleWord(ended.events) && (ended.result.Ok? ==> StatusChanged(Reconnecting) !in ended.events)
  {
    WakesAreWord(text, Some(Decimal(1)), turn.wakes);
    var served := ServeWakes(text, Some(Decimal(1)), turn.wakes).events;
    assert ([StatusChanged(Connecting)] + served)[1..] == served;
    assert [StatusChanged(Connecting)][1..] == [];
  }

  /**
   * Over any number of connections the driver counts itself connected exactly if the
   * last one joined and was ended by a pulse.  Every failure clears the flag; going
   * offline or to the background publishes nothing and leaves it set.
   */
  lemma ConnectedIff(text: Text, connected: bool, turns: seq<Turn>)
    requires turns != []
    ensures var last := Connection(text, turns[|turns| - 1]);
      TrackAll(connected, Life(text, turns).events) <==> last.result.Ok? && StatusChanged(Subscribed) in last.events
  {
    var before, turn := Life(text, turns[..|turns| - 1]), turns[|turns| - 1];
    var ended := Connection(text, turn);
    var status := Aftermath(ended.result, before.rejects).0;
    ConnectionIsCycle(text, turn);
    TrackAppend(connected, before.events, ended.events);
    TrackCycle(TrackAll(connected, before.events), ended.events);
    TrackAppend(connected, before.events + ended.events, status);
    TrackStatus(TrackAll(connected, before.events + ended.events), status);
  }

  lemma TrackStatus(connected: bool, status: seq<RealtimeEvent>)
    requires status == [] || (|status| == 1 && status[0].StatusChanged? && status[0].status != Subscribed)
    ensures TrackAll(connected, status) <==> connected && status == []
  {
    if status != [] {
      assert TrackAll(Track(connected, status[0]), status[1..]) == Track(connected, status[0]);
    }
  }

  /** After `stop` the driver counts itself disconnected, wherever the stop fell. */
  lemma ClosedMeansDisconnected(connected: bool, events: seq<RealtimeEvent>)
    ensures !TrackAll(connected, events + [StatusChanged(Closed)])
  {
    TrackAppend(connected, events, [StatusChanged(Closed)]);
    TrackStatus(TrackAll(connected, events), [StatusChanged(Closed)]);
  }

  /** It happens: the join is accepted, a pulse ends the connection, and the driver still counts itself connected. */
  lemma SilentPause(text: Text, connected: bool, turns: seq<Turn>, token: string, jr: Json, ref: Json, topic: string,
                    payload: map<string, Json>)
    requires topic != "phoenix" && "status" in payload && payload["status"] == Str("ok")
    ensures var turn := Turn(Dial(true, Some(token), true),
                             [Received(Some(Frame(jr, ref, topic, "phx_reply", payload))), Pulse]);
      var after := Life(text, turns + [turn]);
      && after.events == Life(text, turns).events + [StatusChanged(Connecting), StatusChanged(Subscribed), Connected]
      && TrackAll(connected, after.events)
  {
    var reply := Frame(jr, ref, topic, "phx_reply", payload);
    assert Route(text, Some(Decimal(1)), Some(reply)) == Ok(JoinReplyOk);
    PausedAfterReply(text, connected, turns, token, reply);
  }

  lemma PausedAfterReply(text: Text, connected: bool, turns: seq<Turn>, token: string, reply: Inbound)
    requires Route(text, Some(Decimal(1)), Some(reply)) == Ok(JoinReplyOk)
    ensures var turn := Turn(Dial(true, Some(token), true), [Received(Some(reply)), Pulse]);
      var after := Life(text, turns + [turn]);
      && after.events == Life(text, turns).events + [StatusChanged(Connecting), StatusChanged(Subscribed), Connected]
      && TrackAll(connected, after.events)
  {
    var wakes := [Received(Some(reply)), Pulse];
    var turn, all := Turn(Dial(true, Some(token), true), wakes), turns + [Turn(Dial(true, Some(token), true), wakes)];
    assert wakes[1..] == [Pulse];
    assert ServeWakes(text, Some(Decimal(1)), wakes[1..]) == Ended([], Ok(()));
    assert ServeWakes(text, Some(Decimal(1)), wakes).events == [StatusChanged(Subscribed), Connected];
    assert all[..|all| - 1] == turns;
    var word := Connection(text, turn).events;
    assert word == [StatusChanged(Connecting), StatusChanged(Subscribed), Connected];
    assert word[1] == StatusChanged(Subscribed);
    ConnectedIff(text, connected, all);
  }

  // ----- What ends a connection, and what is published then --------------------

  /** An attempt that does not get to send its join publishes only Connecting, and fails for the first thing missing. */
  lemma DialFails(text: Text, turn: Turn)
    ensures !turn.dial.connects ==> Connection(text, turn) == Ended([StatusChanged(Connecting)], Err(ConnectFailed))
    ensures turn.dial.connects && turn.dial.token.None? ==>
            Connection(text, turn) == Ended([StatusChanged(Connecting)], Err(NoToken))
    ensures turn.dial.connects && turn.dial.token.Some? && !turn.dial.delivered ==>
            Connection(text, turn) == Ended([StatusChanged(Connecting)], Err(SendFailed))
  {
  }

  /** A heartbeat that goes through changes nothing; one that does not ends the connection. */
  lemma HeartbeatEnds(text: Text, jr: string, delivered: bool, token: Option<string>, tokenDelivered: bool, rest: seq<Wake>)
    ensures ServeWakes(text, Some(jr), [HeartbeatDue(delivered, token, tokenDelivered)] + rest) ==
            if !delivered then Ended([], Err(SendFailed))
            else if token.None? then Ended([], Err(NoToken))
            else if !tokenDelivered then Ended([], Err(SendFailed))
            else ServeWakes(text, Some(jr), rest)
  {
    var wakes := [HeartbeatDue(delivered, token, tokenDelivered)] + rest;
    assert wakes[1..] == rest && wakes[0] == HeartbeatDue(delivered, token, tokenDelivered);
  }

  /** A pulse ends it cleanly, whatever would have come. */
  lemma PulseEnds(text: Text, jr: string, rest: seq<Wake>)
    ensures ServeWakes(text, Some(jr), [Pulse] + rest) == Ended([], Ok(()))
  {
    assert ([Pulse] + rest)[0] == Pulse;
  }

  function AsWakes(inbound: seq<Inbound>): seq<Wake> {
    if inbound == [] then [Received(None)] else [Received(Some(inbound[0]))] + AsWakes(inbound[1..])
  }

  /** Without heartbeats and pulses the serving loop is the client's own, to the same events and the same error. */
  lemma {:induction false} ServesLikeClient(text: Text, joinRef: Option<string>, inbound: seq<Inbound>)
    ensures var served := Serve(text, joinRef, inbound);
      ServeWakes(text, joinRef, AsWakes(inbound)) == Ended(served.events, Err(served.error))
    decreases |inbound|
  {
    if inbound != [] {
      assert AsWakes(inbound)[1..] == AsWakes(inbound[1..]);
      ServesLikeClient(text, joinRef, inbound[1..]);
    } else {
      assert AsWakes(inbound)[0] == Received(None);
    }
  }

  /**
   * After a connection: nothing if a pulse ended it, TerminalError if it was the ninth
   * rejection counted, and Reconnecting after any other failure.  A pulse and a
   * TerminalError start the count anew, and only rejections are counted.
   */
  lemma StatusAfter(text: Text, turns: seq<Turn>)
    requires turns != []
    ensures var before, ended := Life(text, turns[..|turns| - 1]), Connection(text, turns[|turns| - 1]);
      var sofar := before.events + ended.events;
      var rejected := ended.result.Err? && ended.result.error.JoinRejected?;
      Life(text, turns) ==
      if ended.result.Ok? then Record(sofar, 0)
      else if rejected && before.rejects >= 8 then Record(sofar + [StatusChanged(TerminalError)], 0)
      else Record(sofar + [StatusChanged(Reconnecting)], before.rejects + if rejected then 1 else 0)
  {
    var before, ended := Life(text, turns[..|turns| - 1]), Connection(text, turns[|turns| - 1]);
    assert before.events + ended.events + [] == before.events + ended.events;
  }

  // ----- Giving up -------------------------------------------------------------

  function Count(events: seq<RealtimeEvent>, e: RealtimeEvent): nat {
    multiset(events)[e]
  }

  predicate Rejected(text: Text, turn: Turn) {
    var r := Connection(text, turn).result;
    r.Err? && r.error.JoinRejected?
  }

  function Rejections(text: Text, turns: seq<Turn>): nat {
    if turns == [] then 0
    else Rejections(text, turns[..|turns| - 1]) + if Rejected(text, turns[|turns| - 1]) then 1 else 0
  }

  /** Nine rejections pay for one TerminalError. */
  function Paid(life: Record): nat {
    MAX_JOIN_REJECT_ATTEMPTS * Count(life.events, StatusChanged(TerminalError)) + life.rejects
  }

  /**
   * No TerminalError is published for less than nine rejections; when no connection
   * ends on a pulse, none of the rejections is forgotten.
   */
  lemma {:induction false} TerminalsPaidFor(text: Text, turns: seq<Turn>)
    ensures Life(text, turns).rejects < MAX_JOIN_REJECT_ATTEMPTS
    ensures Paid(Life(text, turns)) <= Rejections(text, turns)
    ensures (forall t <- turns :: Connection(text, t).result.Err?) ==>
            Paid(Life(text, turns)) == Rejections(text, turns)
  {
    if turns != [] {
      var front, turn := turns[..|turns| - 1], turns[|turns| - 1];
      TerminalsPaidFor(text, front);
      ConnectionIsCycle(text, turn);
      TurnPays(Life(text, front), Connection(text, turn), Life(text, turns));
    }
  }

  lemma TurnPays(before: Record, ended: Ended, after: Record)
    requires before.rejects < MAX_JOIN_REJECT_ATTEMPTS && CycleWord(ended.events)
    requires var (status, rejects) := Aftermath(ended.result, before.rejects);
      after == Record(before.events + ended.events + status, rejects)
    ensures after.rejects < MAX_JOIN_REJECT_ATTEMPTS
    ensures var one := if ended.result.Err? && ended.result.error.JoinRejected? then 1 else 0;
      && Paid(after) <= Paid(before) + one
      && (ended.result.Err? ==> Paid(after) == Paid(before) + one)
  {
    NoTerminal(ended.events);
  }

  lemma {:induction false} NoTerminalServing(w: seq<RealtimeEvent>)
    requires ServingWord(w)
    ensures StatusChanged(TerminalError) !in w
    decreases |w|
  {
    if |w| >= 2 {
      NoTerminalServing(w[2..]);
      assert w == [w[0], w[1]] + w[2..];
    }
  }

  lemma NoTerminal(w: seq<RealtimeEvent>)
    requires CycleWord(w)
    ensures Count(w, StatusChanged(TerminalError)) == 0
  {
    NoTerminalServing(w[1..]);
    assert w == [w[0]] + w[1..];
  }
}
