/** The echo server's message rule, shared by its WebSocket and its data
    channels: a backpressure gate, then a `ping` object rewritten in place
    into a `pong` and sent back; anything else gets no reply. The JSON
    parser, the clock and the sockets are parameters. */
module EchoServer {
  import opened Wrappers
  import opened Json

  /** Buffered bytes above which a message is dropped when the gate is on. */
  const BACKPRESSURE_THRESHOLD := 1024 * 32

  /** The 4-bit opcode of a WebSocket frame (section 5.2 of RFC 6455). */
  newtype OpCode = x: int | 0 <= x < 16

  /** A WebSocket reply: the JSON body and the frame opcode it goes out with. */
  datatype WsReply = WsReply(body: Value, opCode: OpCode)

  /** A data-channel message: text (given by what parsing it produced, None
      when the parser throws) or binary. */
  datatype DcMessage = DcText(parsed: Option<Value>) | DcBinary(bytes: seq<bv8>)

  /** The gate: a message is dropped only when backpressure is enabled and
      strictly more than the threshold is buffered. */
  predicate Drops(enabled: bool, buffered: nat) {
    enabled && buffered > BACKPRESSURE_THRESHOLD
  }

  /** The gate never drops without backpressure, never at the threshold
      itself, and once it drops a message it drops every message that finds
      more bytes buffered. */
  lemma GateMonotone(enabled: bool, fewer: nat, more: nat)
    requires fewer <= more
    ensures Drops(enabled, fewer) ==> Drops(enabled, more)
    ensures !Drops(false, more) && !Drops(enabled, BACKPRESSURE_THRESHOLD)
  { }

  /** `data["type"] == "ping"` on a parsed value. Indexing an array, a
      string, a number or a boolean by key throws, which the handler catches;
      a null or an object without "type" compares unequal. */
  predicate IsPing(v: Value) {
    v.Obj? && "type" in v.fields && v.fields["type"] == Str("ping")
  }

  /** `r` is the pong made from the ping fields `f` at server time `now`:
      `type` is "pong", `client_ts` is the ping's `ts` (null when it had
      none, in which case `ts` is added as null too), `server_ts` is `now`,
      and every other field is echoed unchanged. */
  predicate IsPongFor(f: map<string, Value>, r: map<string, Value>, now: int) {
    var ts := if "ts" in f then f["ts"] else Null;
    && r.Keys == f.Keys + {"ts", "client_ts", "server_ts"}
    && "type" in r && r["type"] == Str("pong")
    && r["ts"] == ts && r["client_ts"] == ts
    && r["server_ts"] == Num(now)
    && (forall k :: k in f && k !in {"type", "client_ts", "server_ts"} ==> r[k] == f[k])
  }

  /** The pong is fully determined by the ping and the server time. */
  lemma PongUnique(f: map<string, Value>, r: map<string, Value>, q: map<string, Value>, now: int)
    requires IsPongFor(f, r, now) && IsPongFor(f, q, now)
    ensures r == q
  {
    forall k | k in r.Keys
      ensures r[k] == q[k]
    {
      if k !in {"type", "ts", "client_ts", "server_ts"} {
        assert k in f;
      }
    }
  }

  /** The body of the handlers' `try`: a parsed ping is rewritten field by
      field into the reply; anything else (including a parse failure,
      `parsed == None`) yields no reply. */
  method Respond(parsed: Option<Value>, now: int) returns (reply: Option<Value>)
    ensures reply.Some? <==> parsed.Some? && IsPing(parsed.value)
    ensures reply.Some? ==> reply.value.Obj? && IsPongFor(parsed.value.fields, reply.value.fields, now)
  {
    if parsed.None? || !IsPing(parsed.value) {
      return None;
    }
    var data := parsed.value.fields;
    data := data["type" := Str("pong")];
    if "ts" !in data {
      data := data["ts" := Null];
    }
    data := data["client_ts" := data["ts"]];
    data := data["server_ts" := Num(now)];
    reply := Some(Obj(data));
  }

  /** The WebSocket `message` handler: the gate, then the rule; the reply
      goes out with the request's opcode. */
  method OnWsMessage(backpressure: bool, buffered: nat, parsed: Option<Value>, opCode: OpCode, now: int)
    returns (sent: Option<WsReply>)
    ensures Drops(backpressure, buffered) ==> sent == None
    ensures !Drops(backpressure, buffered) ==> (sent.Some? <==> parsed.Some? && IsPing(parsed.value))
    ensures sent.Some? ==> sent.value.opCode == opCode && sent.value.body.Obj?
    ensures sent.Some? ==> IsPongFor(parsed.value.fields, sent.value.body.fields, now)
  {
    if Drops(backpressure, buffered) {
      return None;
    }
    var reply := Respond(parsed, now);
    if reply.Some? {
      sent := Some(WsReply(reply.value, opCode));
    } else {
      sent := None;
    }
  }

  /** The data-channel `onMessage` handler: the gate, then the rule for a
      text message; a binary message is ignored. */
  method OnDcMessage(backpressure: bool, buffered: nat, message: DcMessage, now: int)
    returns (sent: Option<Value>)
    ensures Drops(backpressure, buffered) || message.DcBinary? ==> sent == None
    ensures !Drops(backpressure, buffered) && message.DcText? ==>
      (sent.Some? <==> message.parsed.Some? && IsPing(message.parsed.value))
    ensures sent.Some? ==> sent.value.Obj? && IsPongFor(message.parsed.value.fields, sent.value.fields, now)
  {
    if Drops(backpressure, buffered) {
      return None;
    }
    match message
    case DcBinary(_) =>
      sent := None;
    case DcText(parsed) =>
      sent := Respond(parsed, now);
  }

  /** The argument scan at start-up: the gate is enabled exactly when some
      argument after the program name is "--backpressure". */
  method ParseArgs(argv: seq<string>) returns (enabled: bool)
    ensures enabled <==> exists i :: 1 <= i < |argv| && argv[i] == "--backpressure"
  {
    enabled := false;
    var i := 1;
    while i < |argv|
      invariant 1 <= i
      invariant enabled <==> exists j :: 1 <= j < i && j < |argv| && argv[j] == "--backpressure"
    {
      if argv[i] == "--backpressure" {
        enabled := true;
      }
      i := i + 1;
    }
  }
}
