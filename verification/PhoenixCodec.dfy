/** Phoenix serializer 2.0.0: JSON-array frames both ways, binary user broadcasts inbound only. */
module PhoenixCodec {
  import opened Bytes
  import opened Wrappers

  /** A parsed JSON value; a number is kept as its text. */
  datatype Json =
    | Null
    | Bool(b: bool)
    | Num(text: string)
    | Str(s: string)
    | Arr(elements: seq<Json>)
    | Obj(fields: map<string, Json>)

  /** The text conversions of the libraries underneath. */
  datatype Text = Text(
    parse: bytes -> Option<Json>,
    lossy: bytes -> string,
    base64: bytes -> string,
    render: Json -> string)

  datatype CodecError =
    | NotJson
    | NotAnArray
    | WrongLength(got: nat)
    | TooShort
    | UnsupportedKind(kind: byte)
    | Truncated
    | PayloadNotJson

  datatype PhoenixMessage = PhoenixMessage(
    joinRef: Option<string>, ref: Option<string>, topic: string, event: string, payload: Json)

  function AsStr(v: Json): Option<string> {
    if v.Str? then Some(v.s) else None
  }

  function StrOr(v: Json, other: string): string {
    if v.Str? then v.s else other
  }

  /** Indexing a value by a key it does not have, or that is no object, gives null. */
  function Field(v: Json, key: string): Json {
    if v.Obj? && key in v.fields then v.fields[key] else Null
  }

  // ----- Text frames -----------------------------------------------------------

  function OrNull(s: Option<string>): Json {
    if s.Some? then Str(s.value) else Null
  }

  function EncodeOutbound(joinRef: Option<string>, ref: string, topic: string, event: string, payload: Json): Json {
    Arr([OrNull(joinRef), Str(ref), Str(topic), Str(event), payload])
  }

  /** `parsed` is what JSON parsing made of the frame. */
  function DecodeText(parsed: Option<Json>): Result<PhoenixMessage, CodecError> {
    if parsed.None? then Err(NotJson)
    else if !parsed.value.Arr? then Err(NotAnArray)
    else
      var a := parsed.value.elements;
      if |a| != 5 then Err(WrongLength(|a|))
      else Ok(PhoenixMessage(AsStr(a[0]), AsStr(a[1]), StrOr(a[2], ""), StrOr(a[3], ""), a[4]))
  }

  /** What is sent out would decode to what was meant. */
  lemma OutboundRoundTrip(joinRef: Option<string>, ref: string, topic: string, event: string, payload: Json)
    ensures DecodeText(Some(EncodeOutbound(joinRef, ref, topic, event, payload))) ==
            Ok(PhoenixMessage(joinRef, Some(ref), topic, event, payload))
  {
  }

  /** Each way a text frame can be refused. */
  lemma TextRefusedIff(parsed: Option<Json>)
    ensures DecodeText(parsed) == Err(NotJson) <==> parsed.None?
    ensures DecodeText(parsed) == Err(NotAnArray) <==> parsed.Some? && !parsed.value.Arr?
    ensures forall n :: DecodeText(parsed) == Err(WrongLength(n)) <==>
              parsed.Some? && parsed.value.Arr? && |parsed.value.elements| == n && n != 5
  {
  }

  // ----- Binary frames ---------------------------------------------------------

  const USER_BROADCAST: byte := 4
  const HEADER := 5

  datatype Segments = Segments(topic: bytes, event: bytes, meta: bytes, payload: bytes)

  predicate Sized(seg: Segments) {
    |seg.topic| < 256 && |seg.event| < 256 && |seg.meta| < 256
  }

  function Body(seg: Segments): bytes {
    seg.topic + seg.event + seg.meta + seg.payload
  }

  /** How a server lays out a user broadcast; the repository only reads these. */
  function Encode(seg: Segments, encoding: byte): bytes
    requires Sized(seg)
  {
    [USER_BROADCAST, |seg.topic| as byte, |seg.event| as byte, |seg.meta| as byte, encoding] + Body(seg)
  }

  function ParseSegments(b: bytes): Result<Segments, CodecError> {
    if |b| < HEADER then Err(TooShort)
    else if b[0] != USER_BROADCAST then Err(UnsupportedKind(b[0]))
    else
      var e := HEADER + b[1] as nat;
      var m := e + b[2] as nat;
      var p := m + b[3] as nat;
      if p > |b| then Err(Truncated) else Ok(Segments(b[HEADER..e], b[e..m], b[m..p], b[p..]))
  }

  /** The four segments are the frame behind its header, cut where the header says. */
  lemma SegmentsCover(b: bytes)
    requires ParseSegments(b).Ok?
    ensures var seg := ParseSegments(b).value;
      && Body(seg) == b[HEADER..] && Sized(seg)
      && |seg.topic| == b[1] as nat && |seg.event| == b[2] as nat && |seg.meta| == b[3] as nat
  {
    var e := HEADER + b[1] as nat;
    var m := e + b[2] as nat;
    var p := m + b[3] as nat;
    CutInTwo(b, HEADER, e, m);
    CutInTwo(b, HEADER, m, p);
    CutInTwo(b, HEADER, p, |b|);
    assert b[p..] == b[p..|b|] && b[HEADER..] == b[HEADER..|b|];
  }

  lemma CutInTwo(b: bytes, i: nat, j: nat, k: nat)
    requires i <= j <= k <= |b|
    ensures b[i..j] + b[j..k] == b[i..k]
  {
  }

  lemma ParseOfEncode(seg: Segments, encoding: byte)
    requires Sized(seg)
    ensures ParseSegments(Encode(seg, encoding)) == Ok(seg)
  {
    var b := Encode(seg, encoding);
    var e := HEADER + |seg.topic|;
    var m := e + |seg.event|;
    var p := m + |seg.meta|;
    assert b[HEADER..] == Body(seg);
    assert b[HEADER..e] == seg.topic && b[e..m] == seg.event && b[m..p] == seg.meta && b[p..] == seg.payload;
  }

  lemma EncodeOfParse(b: bytes)
    requires ParseSegments(b).Ok?
    ensures Sized(ParseSegments(b).value) && Encode(ParseSegments(b).value, b[4]) == b
  {
    SegmentsCover(b);
    assert b == b[..HEADER] + b[HEADER..];
    assert b[..HEADER] == [b[0], b[1], b[2], b[3], b[4]];
  }

  /** Exactly the laid-out frames parse. */
  lemma ParsesIff(b: bytes)
    ensures ParseSegments(b).Ok? <==> exists seg, encoding :: Sized(seg) && Encode(seg, encoding) == b
  {
    if ParseSegments(b).Ok? {
      EncodeOfParse(b);
    }
    forall seg, encoding | Sized(seg) && Encode(seg, encoding) == b ensures ParseSegments(b).Ok? {
      ParseOfEncode(seg, encoding);
    }
  }

  /** Each way a binary frame can be refused, by its bytes. */
  lemma RefusedIff(b: bytes)
    ensures ParseSegments(b) == Err(TooShort) <==> |b| < 5
    ensures forall kind :: ParseSegments(b) == Err(UnsupportedKind(kind)) <==> |b| >= 5 && b[0] == kind && kind != 4
    ensures ParseSegments(b) == Err(Truncated) <==>
            |b| >= 5 && b[0] == 4 && 5 + b[1] as int + b[2] as int + b[3] as int > |b|
  {
  }

  function PayloadOf(text: Text, payload: bytes, json: bool): Result<Json, CodecError> {
    if !json then Ok(Str(text.base64(payload)))
    else
      var v := text.parse(payload);
      if v.None? then Err(PayloadNotJson) else Ok(v.value)
  }

  /** The envelope a text frame of the same broadcast would carry. */
  function Envelope(text: Text, seg: Segments, payload: Json): Json {
    var env := map["type" := Str("broadcast"), "event" := Str(text.lossy(seg.event)), "payload" := payload];
    var meta := text.parse(seg.meta);
    Obj(if |seg.meta| > 0 && meta.Some? then env["meta" := meta.value] else env)
  }

  function DecodeSegments(text: Text, seg: Segments, json: bool): Result<PhoenixMessage, CodecError> {
    var payload := PayloadOf(text, seg.payload, json);
    if payload.Err? then Err(payload.error)
    else
      Ok(PhoenixMessage(None, None, text.lossy(seg.topic), "broadcast", Envelope(text, seg, payload.value)))
  }

  function DecodeBinarySpec(text: Text, b: bytes): Result<PhoenixMessage, CodecError> {
    var seg := ParseSegments(b);
    if seg.Err? then Err(seg.error) else DecodeSegments(text, seg.value, b[4] == 1)
  }

  method Take(b: bytes, off: nat, n: nat) returns (part: Result<bytes, CodecError>, next: nat)
    requires off <= |b|
    ensures off + n > |b| ==> part == Err(Truncated) && next == off
    ensures off + n <= |b| ==> part == Ok(b[off..off + n]) && next == off + n
  {
    if off + n > |b| {
      return Err(Truncated), off;
    }
    return Ok(b[off..off + n]), off + n;
  }

  method DecodeBinary(text: Text, b: bytes) returns (r: Result<PhoenixMessage, CodecError>)
    ensures r == DecodeBinarySpec(text, b)
  {
    if |b| < HEADER {
      return Err(TooShort);
    }
    if b[0] != USER_BROADCAST {
      return Err(UnsupportedKind(b[0]));
    }
    var off := HEADER;
    var topic, event, meta;
    topic, off := Take(b, off, b[1] as nat);
    if topic.Err? {
      return Err(topic.error);
    }
    event, off := Take(b, off, b[2] as nat);
    if event.Err? {
      return Err(event.error);
    }
    meta, off := Take(b, off, b[3] as nat);
    if meta.Err? {
      return Err(meta.error);
    }
    var payloadBytes := b[off..];
    var payload: Json;
    if b[4] == 1 {
      var parsed := text.parse(payloadBytes);
      if parsed.None? {
        return Err(PayloadNotJson);
      }
      payload := parsed.value;
    } else {
      payload := Str(text.base64(payloadBytes));
    }
    var env := map["type" := Str("broadcast"), "event" := Str(text.lossy(event.value)), "payload" := payload];
    if |meta.value| > 0 {
      var parsed := text.parse(meta.value);
      if parsed.Some? {
        env := env["meta" := parsed.value];
      }
    }
    return Ok(PhoenixMessage(None, None, text.lossy(topic.value), "broadcast", Obj(env)));
  }

  // ----- Routing ---------------------------------------------------------------

  datatype RouterAction =
    | HeartbeatAck
    | JoinReplyOk
    | JoinReplyError(reason: string)
    | Broadcast(name: string, payloadJson: string)
    | ChannelDown
    | Ignore

  function Classify(text: Text, m: PhoenixMessage, joinRef: Option<string>): RouterAction {
    if m.topic == "phoenix" && m.event == "phx_reply" then HeartbeatAck
    else if m.event == "phx_reply" then
      if Field(m.payload, "status") == Str("ok") then JoinReplyOk
      else JoinReplyError(StrOr(Field(Field(m.payload, "response"), "reason"), "unknown"))
    else if m.event == "broadcast" then
      Broadcast(StrOr(Field(m.payload, "event"), ""), text.render(Field(m.payload, "payload")))
    else if m.event == "phx_error" || m.event == "phx_close" then
      if joinRef.Some? && m.joinRef != joinRef then Ignore else ChannelDown
    else Ignore
  }

  predicate TextOrElse(v: Json, other: string, text: string) {
    v == Str(text) || (!v.Str? && text == other)
  }

  /** One condition for each action a message can lead to. */
  lemma ActionIff(text: Text, m: PhoenixMessage, joinRef: Option<string>)
    ensures var action, status := Classify(text, m, joinRef), Field(m.payload, "status");
      var ofChannel := m.event == "phx_reply" && m.topic != "phoenix";
      && (action == HeartbeatAck <==> m.event == "phx_reply" && m.topic == "phoenix")
      && (action == JoinReplyOk <==> ofChannel && status == Str("ok"))
      && (forall r :: action == JoinReplyError(r) <==>
            ofChannel && status != Str("ok") && TextOrElse(Field(Field(m.payload, "response"), "reason"), "unknown", r))
      && (forall n, p :: action == Broadcast(n, p) <==>
            m.event == "broadcast" && TextOrElse(Field(m.payload, "event"), "", n)
            && p == text.render(Field(m.payload, "payload")))
  {
  }

  predicate Stale(m: PhoenixMessage, joinRef: Option<string>) {
    joinRef.Some? && m.joinRef != joinRef
  }

  lemma IgnoredIff(text: Text, m: PhoenixMessage, joinRef: Option<string>)
    ensures Classify(text, m, joinRef) == Ignore <==>
            m.event !in {"phx_reply", "broadcast", "phx_error", "phx_close"}
            || (m.event in {"phx_error", "phx_close"} && Stale(m, joinRef))
  {
  }

  /**
   * A JSON-encoded binary frame and a text frame that carry the same broadcast
   * are routed the same way, whatever else the text frame holds.
   */
  lemma SameBroadcast(text: Text, seg: Segments, payload: Json, frame: seq<Json>, joinRef: Option<string>)
    requires Sized(seg) && text.parse(seg.payload) == Some(payload)
    requires |frame| == 5 && frame[3] == Str("broadcast")
    requires Field(frame[4], "event") == Str(text.lossy(seg.event)) && Field(frame[4], "payload") == payload
    ensures var binary, textual := DecodeBinarySpec(text, Encode(seg, 1)), DecodeText(Some(Arr(frame)));
      && binary.Ok? && textual.Ok?
      && Classify(text, binary.value, joinRef) == Classify(text, textual.value, joinRef)
         == Broadcast(text.lossy(seg.event), text.render(payload))
  {
    ParseOfEncode(seg, 1);
  }

  /**
   * What a binary frame decodes to: a broadcast message of its topic, without
   * references, whose payload is the parsed JSON or else the Base64 text of the
   * payload bytes, and whose metadata is there exactly if it is JSON.
   */
  lemma BinaryMessage(text: Text, seg: Segments, encoding: byte)
    requires Sized(seg)
    ensures var r := DecodeBinarySpec(text, Encode(seg, encoding));
      && (r == Err(PayloadNotJson) <==> encoding == 1 && text.parse(seg.payload).None?)
      && (r.Err? ==> r == Err(PayloadNotJson))
      && (r.Ok? ==> BroadcastOf(text, seg, encoding, r.value))
  {
    ParseOfEncode(seg, encoding);
  }

  predicate BroadcastOf(text: Text, seg: Segments, encoding: byte, m: PhoenixMessage) {
    && m.joinRef == None && m.ref == None && m.topic == text.lossy(seg.topic) && m.event == "broadcast"
    && m.payload.Obj?
    && m.payload.fields.Keys <= {"type", "event", "payload", "meta"}
    && Field(m.payload, "type") == Str("broadcast")
    && Field(m.payload, "event") == Str(text.lossy(seg.event))
    && (if encoding == 1 then Some(Field(m.payload, "payload")) == text.parse(seg.payload)
        else Field(m.payload, "payload") == Str(text.base64(seg.payload)))
    && ("meta" in m.payload.fields <==> seg.meta != [] && text.parse(seg.meta).Some?)
    && ("meta" in m.payload.fields ==> Some(m.payload.fields["meta"]) == text.parse(seg.meta))
  }

  /** A close or error takes the channel down unless it belongs to an earlier join. */
  lemma ChannelDownIff(text: Text, m: PhoenixMessage, joinRef: Option<string>)
    ensures Classify(text, m, joinRef) == ChannelDown <==>
            (m.event == "phx_error" || m.event == "phx_close") && (joinRef == None || m.joinRef == joinRef)
  {
    assert "phx_error"[4] != "phx_reply"[4] && "phx_close"[4] != "phx_reply"[4];
    assert "phx_error"[0] != "broadcast"[0] && "phx_close"[0] != "broadcast"[0];
  }
}
