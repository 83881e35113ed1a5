/** The channel client: connect, join, route one frame at a time; and what the driver makes of its events. */
module PhoenixClient {
  import opened Bytes
  import opened PhoenixCodec
  import opened RealtimeEvents
  import opened Wrappers

  datatype ClientError =
    | ConnectFailed
    | SendFailed
    | CloseFailed
    | NoToken
    | ReceiveFailed
    | RecvEnded
    | WentDown
    | BadFrame(codec: CodecError)
    | JoinRejected(reason: string)

  /** One answer of the transport: a text frame as JSON parsing sees it, a binary frame, or an error. */
  datatype Inbound = TextFrame(parsed: Option<Json>) | BinaryFrame(raw: bytes) | ReceiveError

  const CLIENT_VERSION := "realtime-js/2.95.2"

  function TopicForUser(userId: string): string {
    "realtime:wallet:" + userId
  }

  function JoinPayload(token: string): Json {
    var broadcast := Obj(map["ack" := Bool(false), "self" := Bool(false)]);
    var presence := Obj(map["key" := Str(""), "enabled" := Bool(false)]);
    var config := Obj(map["broadcast" := broadcast, "presence" := presence,
                          "postgres_changes" := Arr([]), "private" := Bool(true)]);
    Obj(map["config" := config, "access_token" := Str(token), "version" := Str(CLIENT_VERSION)])
  }

  // ----- Reference numbers -----------------------------------------------------

  const DIGITS := "0123456789"

  function Decimal(n: nat): (text: string)
    ensures |text| >= 1
  {
    if n < 10 then [DIGITS[n]] else Decimal(n / 10) + [DIGITS[n % 10]]
  }

  lemma DigitsDistinct(a: nat, b: nat)
    requires a < 10 && b < 10 && DIGITS[a] == DIGITS[b]
    ensures a == b
  {
  }

  lemma {:induction false} DecimalInjective(a: nat, b: nat)
    requires Decimal(a) == Decimal(b)
    ensures a == b
    decreases a + b
  {
    var s := Decimal(a);
    if a < 10 || b < 10 {
      assert |s| == 1;
      DigitsDistinct(a, b);
    } else {
      assert s[..|s| - 1] == Decimal(a / 10) && s[..|s| - 1] == Decimal(b / 10);
      DecimalInjective(a / 10, b / 10);
      DigitsDistinct(a % 10, b % 10);
    }
  }

  // ----- One frame -------------------------------------------------------------

  function DecodeFrame(text: Text, frame: Inbound): Result<PhoenixMessage, CodecError>
    requires !frame.ReceiveError?
  {
    match frame
    case TextFrame(parsed) => DecodeText(parsed)
    case BinaryFrame(raw) => DecodeBinarySpec(text, raw)
  }

  /** The end of the stream, an error and an unreadable frame all fail; anything else is routed. */
  function Route(text: Text, joinRef: Option<string>, item: Option<Inbound>): Result<RouterAction, ClientError> {
    if item.None? then Err(RecvEnded)
    else if item.value.ReceiveError? then Err(ReceiveFailed)
    else
      var m := DecodeFrame(text, item.value);
      if m.Err? then Err(BadFrame(m.error)) else Ok(Classify(text, m.value, joinRef))
  }

  function Emits(a: RouterAction): seq<RealtimeEvent> {
    match a
    case JoinReplyOk => [StatusChanged(Subscribed), Connected]
    case JoinReplyError(reason) => [Error("join rejected: " + reason)]
    case Broadcast(name, payloadJson) => [Event(name, payloadJson), Change(name, payloadJson)]
    case ChannelDown => [StatusChanged(Reconnecting)]
    case _ => []
  }

  function ResultOf(a: RouterAction): Result<bool, ClientError> {
    match a
    case JoinReplyError(reason) => Err(JoinRejected(reason))
    case ChannelDown => Err(WentDown)
    case _ => Ok(true)
  }

  /** Serving a list of answers until one fails; the list ends with the end of the stream. */
  datatype Served = Served(events: seq<RealtimeEvent>, error: ClientError)

  function Serve(text: Text, joinRef: Option<string>, inbound: seq<Inbound>): Served
    decreases |inbound|
  {
    var action := Route(text, joinRef, if inbound == [] then None else Some(inbound[0]));
    if action.Err? then Served([], action.error)
    else
      var r := ResultOf(action.value);
      if r.Err? then Served(Emits(action.value), r.error)
      else
        var rest := Serve(text, joinRef, inbound[1..]);
        Served(Emits(action.value) + rest.events, rest.error)
  }

  // ----- What each kind of frame leads to --------------------------------------

  /** A text frame with these five elements. */
  function Frame(joinRef: Json, ref: Json, topic: string, event: string, payload: map<string, Json>): Inbound {
    TextFrame(Some(Arr([joinRef, ref, Str(topic), Str(event), Obj(payload)])))
  }

  lemma FirstServed(text: Text, joinRef: Option<string>, first: Inbound, rest: seq<Inbound>)
    ensures var action, served := Route(text, joinRef, Some(first)), Serve(text, joinRef, [first] + rest);
      match action
      case Err(e) => served == Served([], e)
      case Ok(a) =>
        if ResultOf(a).Err? then served == Served(Emits(a), ResultOf(a).error)
        else served == Served(Emits(a) + Serve(text, joinRef, rest).events, Serve(text, joinRef, rest).error)
  {
    assert ([first] + rest)[1..] == rest;
  }

  /** A reply with status "ok" outside the topic "phoenix" publishes Subscribed and Connected, and serving goes on. */
  lemma AcceptedJoin(text: Text, joinRef: Option<string>, jr: Json, ref: Json, topic: string,
                     payload: map<string, Json>, rest: seq<Inbound>)
    requires topic != "phoenix" && "status" in payload && payload["status"] == Str("ok")
    ensures var after := Serve(text, joinRef, rest);
      Serve(text, joinRef, [Frame(jr, ref, topic, "phx_reply", payload)] + rest) ==
      Served([StatusChanged(Subscribed), Connected] + after.events, after.error)
  {
    FirstServed(text, joinRef, Frame(jr, ref, topic, "phx_reply", payload), rest);
  }

  /** With any other status, or none, it publishes the rejection with its reason, and serving ends. */
  lemma RejectedJoin(text: Text, joinRef: Option<string>, jr: Json, ref: Json, topic: string,
                     payload: map<string, Json>, reason: string, rest: seq<Inbound>)
    requires topic != "phoenix" && ("status" in payload ==> payload["status"] != Str("ok"))
    requires TextOrElse(Field(Field(Obj(payload), "response"), "reason"), "unknown", reason)
    ensures Serve(text, joinRef, [Frame(jr, ref, topic, "phx_reply", payload)] + rest) ==
            Served([Error("join rejected: " + reason)], JoinRejected(reason))
  {
    FirstServed(text, joinRef, Frame(jr, ref, topic, "phx_reply", payload), rest);
  }

  /** A broadcast is published twice, for those who fetch again and for those who apply it. */
  lemma BroadcastServed(text: Text, joinRef: Option<string>, jr: Json, ref: Json, topic: string,
                        payload: map<string, Json>, name: string, rest: seq<Inbound>)
    requires "event" in payload && payload["event"] == Str(name) && "payload" in payload
    ensures var after, body := Serve(text, joinRef, rest), text.render(payload["payload"]);
      Serve(text, joinRef, [Frame(jr, ref, topic, "broadcast", payload)] + rest) ==
      Served([Event(name, body), Change(name, body)] + after.events, after.error)
  {
    FirstServed(text, joinRef, Frame(jr, ref, topic, "broadcast", payload), rest);
  }

  /** An error or close of this join publishes Reconnecting, and serving ends; one of an earlier join does nothing. */
  lemma DownServed(text: Text, own: string, jr: string, ref: Json, topic: string, event: string,
                   payload: map<string, Json>, rest: seq<Inbound>)
    requires event == "phx_error" || event == "phx_close"
    ensures Serve(text, Some(own), [Frame(Str(jr), ref, topic, event, payload)] + rest) ==
            if jr == own then Served([StatusChanged(Reconnecting)], WentDown) else Serve(text, Some(own), rest)
  {
    FirstServed(text, Some(own), Frame(Str(jr), ref, topic, event, payload), rest);
  }

  /** A reply on the topic "phoenix" answers a heartbeat and does nothing. */
  lemma HeartbeatAnswered(text: Text, joinRef: Option<string>, jr: Json, ref: Json,
                          payload: map<string, Json>, rest: seq<Inbound>)
    ensures Serve(text, joinRef, [Frame(jr, ref, "phoenix", "phx_reply", payload)] + rest) == Serve(text, joinRef, rest)
  {
    FirstServed(text, joinRef, Frame(jr, ref, "phoenix", "phx_reply", payload), rest);
  }

  /** Serving publishes nothing more and fails at the end of the stream, on an error, and on a frame that does not decode. */
  lemma ServingFails(text: Text, joinRef: Option<string>, first: Inbound, rest: seq<Inbound>)
    ensures Serve(text, joinRef, []) == Served([], RecvEnded)
    ensures Serve(text, joinRef, [ReceiveError] + rest) == Served([], ReceiveFailed)
    ensures first.TextFrame? && DecodeText(first.parsed).Err? ==>
            Serve(text, joinRef, [first] + rest) == Served([], BadFrame(DecodeText(first.parsed).error))
    ensures first.BinaryFrame? && DecodeBinarySpec(text, first.raw).Err? ==>
            Serve(text, joinRef, [first] + rest) == Served([], BadFrame(DecodeBinarySpec(text, first.raw).error))
  {
    FirstServed(text, joinRef, ReceiveError, rest);
    FirstServed(text, joinRef, first, rest);
  }

  // ----- What a cycle publishes ------------------------------------------------

  /** (Subscribed Connected | Event Change)* (Error | Reconnecting)? */
  predicate ServingWord(w: seq<RealtimeEvent>)
    decreases |w|
  {
    || w == []
    || (|w| == 1 && (w[0].Error? || w[0] == StatusChanged(Reconnecting)))
    || (|w| >= 2 && w[0] == StatusChanged(Subscribed) && w[1] == Connected && ServingWord(w[2..]))
    || (|w| >= 2 && w[0].Event? && w[1] == Change(w[0].name, w[0].payloadJson) && ServingWord(w[2..]))
  }

  /** Connecting, then a serving word. */
  predicate CycleWord(w: seq<RealtimeEvent>) {
    |w| >= 1 && w[0] == StatusChanged(Connecting) && ServingWord(w[1..])
  }

  lemma {:induction false} ServeIsWord(text: Text, joinRef: Option<string>, inbound: seq<Inbound>)
    ensures ServingWord(Serve(text, joinRef, inbound).events)
    decreases |inbound|
  {
    var action := Route(text, joinRef, if inbound == [] then None else Some(inbound[0]));
    if action.Ok? && ResultOf(action.value).Ok? {
      ServeIsWord(text, joinRef, inbound[1..]);
      Prepended(action.value, Serve(text, joinRef, inbound[1..]).events);
    }
  }

  lemma Prepended(a: RouterAction, rest: seq<RealtimeEvent>)
    requires ResultOf(a).Ok? && ServingWord(rest)
    ensures ServingWord(Emits(a) + rest)
  {
    var w := Emits(a) + rest;
    if Emits(a) == [] {
      assert w == rest;
    } else {
      assert w[2..] == rest;
    }
  }

  // ----- The client ------------------------------------------------------------

  class Client {
    const userId: string
    var refs: nat
    var joinRef: Option<string>
    var sent: seq<Json>
    var events: seq<RealtimeEvent>
    // The reference number of each frame sent.
    ghost var numbers: seq<nat>

    ghost predicate Valid()
      reads this
    {
      && |numbers| == |sent|
      && (forall k :: 0 <= k < |sent| ==> RefOf(sent[k]) == Str(Decimal(numbers[k])) && numbers[k] <= refs)
      && (forall k, l :: 0 <= k < l < |numbers| ==> numbers[k] < numbers[l])
    }

    constructor (userId: string)
      ensures Valid() && this.userId == userId && refs == 0 && joinRef == None && sent == [] && events == []
    {
      this.userId, refs, joinRef, sent, events, numbers := userId, 0, None, [], [], [];
    }

    method Send(frame: Json, delivered: bool) returns (ok: bool)
      requires Valid() && RefOf(frame) == Str(Decimal(refs))
      requires forall k :: 0 <= k < |numbers| ==> numbers[k] < refs
      modifies this`sent, this`numbers
      ensures Valid() && ok == delivered && sent == old(sent) + if delivered then [frame] else []
      ensures forall k :: 0 <= k < |numbers| ==> numbers[k] <= refs
    {
      if delivered {
        sent := sent + [frame];
        numbers := numbers + [refs];
      }
      return delivered;
    }

    method ConnectAndJoin(connects: bool, token: Option<string>, delivered: bool) returns (r: Result<(), ClientError>)
      requires Valid()
      modifies this
      ensures Valid() && events == old(events) + [StatusChanged(Connecting)]
      ensures r == JoinResult(connects, token, delivered)
      ensures connects ==> refs == old(refs) + 1 && joinRef == Some(Decimal(refs))
      ensures !connects ==> refs == old(refs) && joinRef == old(joinRef)
      ensures sent == old(sent) + if r.Ok? then [JoinFrame(userId, refs, token.value)] else []
    {
      events := events + [StatusChanged(Connecting)];
      if !connects {
        return Err(ConnectFailed);
      }
      refs := refs + 1;
      var jr := Decimal(refs);
      joinRef := Some(jr);
      if token.None? {
        return Err(NoToken);
      }
      var ok := Send(EncodeOutbound(Some(jr), jr, TopicForUser(userId), "phx_join", JoinPayload(token.value)), delivered);
      return if ok then Ok(()) else Err(SendFailed);
    }

    method ServeStep(text: Text, item: Option<Inbound>) returns (r: Result<bool, ClientError>)
      modifies this`events
      ensures var action := Route(text, joinRef, item);
        && events == old(events) + (if action.Ok? then Emits(action.value) else [])
        && r == if action.Ok? then ResultOf(action.value) else Err(action.error)
      ensures r != Ok(false)
    {
      if item.None? {
        return Err(RecvEnded);
      }
      if item.value.ReceiveError? {
        return Err(ReceiveFailed);
      }
      var msg: Result<PhoenixMessage, CodecError>;
      match item.value {
        case TextFrame(parsed) => msg := DecodeText(parsed);
        case BinaryFrame(raw) => msg := DecodeBinary(text, raw);
      }
      if msg.Err? {
        return Err(BadFrame(msg.error));
      }
      match Classify(text, msg.value, joinRef) {
        case JoinReplyOk =>
          events := events + [StatusChanged(Subscribed)];
          events := events + [Connected];
        case JoinReplyError(reason) =>
          events := events + [Error("join rejected: " + reason)];
          return Err(JoinRejected(reason));
        case Broadcast(name, payloadJson) =>
          events := events + [Event(name, payloadJson)];
          events := events + [Change(name, payloadJson)];
        case ChannelDown =>
          events := events + [StatusChanged(Reconnecting)];
          return Err(WentDown);
        case HeartbeatAck =>
        case Ignore =>
      }
      return Ok(true);
    }

    /** Serves frames until a step fails, as one always does by the end of the stream. */
    method ServeAll(text: Text, inbound: seq<Inbound>) returns (error: ClientError)
      modifies this`events
      ensures var served := Serve(text, joinRef, inbound);
        events == old(events) + served.events && error == served.error
    {
      ghost var all := Serve(text, joinRef, inbound);
      ghost var before := events;
      var i := 0;
      var more := true;
      assert inbound[0..] == inbound;
      while more
        invariant 0 <= i <= |inbound| && more
        invariant Remains(before + all.events, all.error, events, Serve(text, joinRef, inbound[i..]))
        decreases |inbound| - i
      {
        ghost var rest := Serve(text, joinRef, inbound[i..]);
        ghost var now := events;
        var item := if i < |inbound| then Some(inbound[i]) else None;
        var step := ServeStep(text, item);
        ghost var after := ServeOne(text, joinRef, inbound, i, now, events, step);
        if step.Err? {
          return step.error;
        }
        Regroup(now, events, rest, after);
        more := step.value;
        i := i + 1;
      }
      return RecvEnded;
    }

    /** One cycle.  It never succeeds, and what it publishes is a cycle word. */
    method RunOnce(text: Text, connects: bool, token: Option<string>, delivered: bool, inbound: seq<Inbound>)
      returns (r: Result<(), ClientError>)
      requires Valid()
      modifies this
      ensures Valid() && r.Err? && |events| > |old(events)| && old(events) == events[..|old(events)|]
      ensures CycleWord(events[|old(events)|..])
      ensures connects && token.Some? && delivered ==>
        var served := Serve(text, Some(Decimal(old(refs) + 1)), inbound);
        events[|old(events)| + 1..] == served.events && r == Err(served.error)
      ensures !(connects && token.Some? && delivered) ==> events == old(events) + [StatusChanged(Connecting)]
    {
      ghost var before := events;
      var joined := ConnectAndJoin(connects, token, delivered);
      ghost var start := events;
      assert start[..|before|] == before && start[|before|..] == [StatusChanged(Connecting)];
      if joined.Err? {
        return Err(joined.error);
      }
      var error := ServeAll(text, inbound);
      ServeIsWord(text, joinRef, inbound);
      CutOff(before, start, events, Serve(text, joinRef, inbound).events);
      return Err(error);
    }

    /** The 25-second heartbeat, and after a join a fresh token. */
    method SendHeartbeat(delivered: bool, token: Option<string>, tokenDelivered: bool) returns (r: Result<(), ClientError>)
      requires Valid()
      modifies this
      ensures Valid() && events == old(events) && joinRef == old(joinRef)
      ensures r == HeartbeatResult(joinRef.Some?, delivered, token, tokenDelivered)
      ensures sent == old(sent)
        + (if delivered then [HeartbeatFrame(joinRef, old(refs) + 1)] else [])
        + if r.Ok? && joinRef.Some? then [TokenFrame(userId, joinRef, refs, token.value)] else []
    {
      refs := refs + 1;
      var ok := Send(HeartbeatFrame(joinRef, refs), delivered);
      if !ok {
        return Err(SendFailed);
      }
      if joinRef.None? {
        return Ok(());
      }
      r := PushToken(token, tokenDelivered);
    }

    method PushToken(token: Option<string>, delivered: bool) returns (r: Result<(), ClientError>)
      requires Valid()
      modifies this`refs, this`sent, this`numbers
      ensures Valid() && refs >= old(refs)
      ensures r == if token.None? then Err(NoToken) else if delivered then Ok(()) else Err(SendFailed)
      ensures sent == old(sent) + if r.Ok? then [TokenFrame(userId, joinRef, refs, token.value)] else []
    {
      if token.None? {
        return Err(NoToken);
      }
      refs := refs + 1;
      var ok := Send(TokenFrame(userId, joinRef, refs, token.value), delivered);
      return if ok then Ok(()) else Err(SendFailed);
    }

    /** Leaves the channel if it was joined, whether or not the frame gets through, and closes the socket. */
    method LeaveAndClose(delivered: bool, closes: bool) returns (r: Result<(), ClientError>)
      requires Valid()
      modifies this
      ensures Valid() && events == old(events) && joinRef == old(joinRef)
      ensures r.Ok? <==> closes
      ensures sent == old(sent) + if joinRef.Some? && delivered then [LeaveFrame(userId, joinRef, refs)] else []
    {
      if joinRef.Some? {
        refs := refs + 1;
        var ok := Send(LeaveFrame(userId, joinRef, refs), delivered);
      }
      return if closes then Ok(()) else Err(CloseFailed);
    }

    /** No two frames ever sent carry the same reference. */
    lemma RefsDistinct(k: nat, l: nat)
      requires Valid() && k < l < |sent|
      ensures RefOf(sent[k]) != RefOf(sent[l])
    {
      if Decimal(numbers[k]) == Decimal(numbers[l]) {
        DecimalInjective(numbers[k], numbers[l]);
      }
    }
  }

  function JoinResult(connects: bool, token: Option<string>, delivered: bool): Result<(), ClientError> {
    if !connects then Err(ConnectFailed)
    else if token.None? then Err(NoToken)
    else if !delivered then Err(SendFailed)
    else Ok(())
  }

  function HeartbeatFrame(joinRef: Option<string>, n: nat): Json {
    EncodeOutbound(joinRef, Decimal(n), "phoenix", "heartbeat", Obj(map[]))
  }

  /** A heartbeat is a push and, after a join, a push of a fresh token. */
  function HeartbeatResult(joined: bool, delivered: bool, token: Option<string>, tokenDelivered: bool)
    : Result<(), ClientError>
  {
    if !delivered then Err(SendFailed)
    else if !joined then Ok(())
    else if token.None? then Err(NoToken)
    else if !tokenDelivered then Err(SendFailed)
    else Ok(())
  }

  function LeaveFrame(userId: string, joinRef: Option<string>, n: nat): Json {
    EncodeOutbound(joinRef, Decimal(n), TopicForUser(userId), "phx_leave", Obj(map[]))
  }

  function TokenFrame(userId: string, joinRef: Option<string>, n: nat, token: string): Json {
    EncodeOutbound(joinRef, Decimal(n), TopicForUser(userId), "access_token", Obj(map["access_token" := Str(token)]))
  }

  /** What is published so far and what the rest will publish make up the whole. */
  predicate Remains(whole: seq<RealtimeEvent>, error: ClientError, sofar: seq<RealtimeEvent>, rest: Served) {
    whole == sofar + rest.events && error == rest.error
  }

  lemma Regroup(now: seq<RealtimeEvent>, next: seq<RealtimeEvent>, rest: Served, after: Served)
    requires |now| <= |next| && next[..|now|] == now && rest.events == next[|now|..] + after.events
    ensures now + rest.events == next + after.events
  {
  }

  /** A step publishes the front of what serving publishes. */
  lemma ServeOne(text: Text, joinRef: Option<string>, inbound: seq<Inbound>, i: nat,
                 now: seq<RealtimeEvent>, next: seq<RealtimeEvent>, step: Result<bool, ClientError>)
    returns (after: Served)
    requires i <= |inbound|
    requires var action := Route(text, joinRef, if i < |inbound| then Some(inbound[i]) else None);
      && next == now + (if action.Ok? then Emits(action.value) else [])
      && step == if action.Ok? then ResultOf(action.value) else Err(action.error)
    ensures |now| <= |next| && next[..|now|] == now
    ensures var served := Serve(text, joinRef, inbound[i..]);
      && (step.Err? ==> now + served.events == next && served.error == step.error)
      && (step.Ok? ==> i < |inbound| && after == Serve(text, joinRef, inbound[i + 1..])
                       && served.events == next[|now|..] + after.events && served.error == after.error)
  {
    var rest := inbound[i..];
    if i < |inbound| {
      assert rest[0] == inbound[i] && rest[1..] == inbound[i + 1..];
      after := Serve(text, joinRef, rest[1..]);
    } else {
      after := Served([], RecvEnded);
    }
  }

  function RefOf(frame: Json): Json {
    if frame.Arr? && |frame.elements| == 5 then frame.elements[1] else Null
  }

  function JoinFrame(userId: string, n: nat, token: string): Json {
    EncodeOutbound(Some(Decimal(n)), Decimal(n), TopicForUser(userId), "phx_join", JoinPayload(token))
  }

  /** What a server reads in the join: a private channel of this user, without presence or echo, and the token. */
  lemma JoinFrameSays(userId: string, n: nat, token: string)
    ensures var m := DecodeText(Some(JoinFrame(userId, n, token)));
      && m.Ok? && m.value.joinRef == m.value.ref == Some(Decimal(n))
      && m.value.topic == "realtime:wallet:" + userId && m.value.event == "phx_join"
      && Field(m.value.payload, "access_token") == Str(token)
      && Field(m.value.payload, "version") == Str("realtime-js/2.95.2")
      && (var config := Field(m.value.payload, "config");
          && Field(config, "private") == Bool(true) && Field(config, "postgres_changes") == Arr([])
          && Field(Field(config, "presence"), "enabled") == Bool(false) && Field(Field(config, "presence"), "key") == Str("")
          && Field(Field(config, "broadcast"), "self") == Bool(false)
          && Field(Field(config, "broadcast"), "ack") == Bool(false))
  {
  }

  /** And in the other frames. */
  lemma OtherFramesSay(userId: string, joinRef: Option<string>, n: nat, token: string)
    ensures DecodeText(Some(HeartbeatFrame(joinRef, n))) ==
            Ok(PhoenixMessage(joinRef, Some(Decimal(n)), "phoenix", "heartbeat", Obj(map[])))
    ensures DecodeText(Some(LeaveFrame(userId, joinRef, n))) ==
            Ok(PhoenixMessage(joinRef, Some(Decimal(n)), "realtime:wallet:" + userId, "phx_leave", Obj(map[])))
    ensures DecodeText(Some(TokenFrame(userId, joinRef, n, token))) ==
            Ok(PhoenixMessage(joinRef, Some(Decimal(n)), "realtime:wallet:" + userId, "access_token",
                              Obj(map["access_token" := Str(token)])))
  {
  }

  lemma CutOff(before: seq<RealtimeEvent>, start: seq<RealtimeEvent>, now: seq<RealtimeEvent>, served: seq<RealtimeEvent>)
    requires start == before + [StatusChanged(Connecting)] && |start| <= |now| && now[..|start|] == start
    requires now[|start|..] == served && ServingWord(served)
    ensures now[..|before|] == before && CycleWord(now[|before|..]) && now[|before| + 1..] == served
  {
    assert now[..|before|] == now[..|start|][..|before|];
    assert now[|before|] == now[..|start|][|before|];
    assert now[|before|..][1..] == served;
  }

  // ----- What the driver makes of it -------------------------------------------

  lemma {:induction false} TrackServing(connected: bool, w: seq<RealtimeEvent>)
    requires ServingWord(w)
    ensures TrackAll(connected, w) <==>
            (connected || StatusChanged(Subscribed) in w) && StatusChanged(Reconnecting) !in w
    decreases |w|
  {
    if |w| >= 2 {
      var now := Track(Track(connected, w[0]), w[1]);
      TrackTwo(connected, w);
      TrackServing(now, w[2..]);
      assert w == [w[0], w[1]] + w[2..];
    } else if |w| == 1 {
      assert TrackAll(Track(connected, w[0]), w[1..]) == Track(connected, w[0]);
    }
  }

  lemma TrackTwo(connected: bool, w: seq<RealtimeEvent>)
    requires |w| >= 2
    ensures TrackAll(connected, w) == TrackAll(Track(Track(connected, w[0]), w[1]), w[2..])
  {
    assert w[1..][1..] == w[2..];
    assert TrackAll(Track(connected, w[0]), w[1..]) == TrackAll(Track(Track(connected, w[0]), w[1]), w[1..][1..]);
  }

  /** After a cycle the driver counts itself connected exactly if it joined and the channel did not report going down. */
  lemma TrackCycle(connected: bool, w: seq<RealtimeEvent>)
    requires CycleWord(w)
    ensures TrackAll(connected, w) <==> StatusChanged(Subscribed) in w && StatusChanged(Reconnecting) !in w
  {
    TrackServing(false, w[1..]);
    assert w == [w[0]] + w[1..];
  }
}
