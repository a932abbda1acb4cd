/** One probe end to end: the client's ping, the server's pong, and the
    client reading that pong back. */
module RoundTrip {
  import opened Wrappers
  import opened Json
  import EchoServer
  import ProbeEngine

  /** Whatever the server clock says, the pong made from probe `id` sent at
      `ts` is read back by the client as that id and that origin time, so
      the round-trip time it records is its own clock difference. */
  lemma PongCarriesProbe(id: nat, ts: int, paddingSize: int, serverNow: int, reply: map<string, Value>)
    requires EchoServer.IsPongFor(ProbeEngine.ProbeMessage(id, ts, paddingSize).fields, reply, serverNow)
    ensures ProbeEngine.ReadPong(Obj(reply)) == Some(ProbeEngine.Pong(ProbeEngine.NumId(id), ts))
  {
    var probe := ProbeEngine.ProbeMessage(id, ts, paddingSize);
    ProbeEngine.ProbeMessageFields(id, ts, paddingSize);
    assert "id" in probe.fields && "id" !in {"type", "client_ts", "server_ts"};
    assert reply["id"] == Num(id);
    assert reply["client_ts"] == Num(ts);
  }

  /** The client's probe is a ping, so the server answers it. */
  lemma ProbeIsAnswered(id: nat, ts: int, paddingSize: int)
    ensures EchoServer.IsPing(ProbeEngine.ProbeMessage(id, ts, paddingSize))
  {
    ProbeEngine.ProbeMessageFields(id, ts, paddingSize);
  }

  /** A pong sent to the server gets no reply: replies never echo back and
      forth. */
  lemma PongIsNotAnswered(id: nat, ts: int, paddingSize: int, serverNow: int, reply: map<string, Value>)
    requires EchoServer.IsPongFor(ProbeEngine.ProbeMessage(id, ts, paddingSize).fields, reply, serverNow)
    ensures !EchoServer.IsPing(Obj(reply))
  {
    ProbeEngine.ProbeMessageFields(id, ts, paddingSize);
  }
}
