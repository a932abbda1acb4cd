/** The browser client's measurement engine: the run state, the per-transport
    metrics, the probe tick, the reply handler and the statistics tick. Clock
    readings, channel states and send outcomes are parameters. */
module ProbeEngine {
  import opened Wrappers
  import opened Json
  import opened Numerals
  import opened JsNumbers
  import opened RollingStats
  import opened SeriesBuffer

  /** The three transports: the WebSocket, the unordered data channel with no
      retransmissions, and the ordered reliable data channel. */
  datatype Transport = Ws | RtcUnreliable | RtcReliable

  /** One transport's record: probes sent, replies received, the samples of
      the statistics window and the chart series. */
  datatype Metrics = Metrics(sent: nat, recv: nat, rttHistory: seq<Sample>, chartData: seq<Point>)

  const EmptyMetrics := Metrics(0, 0, [], [])

  /** One value per transport, like the client's object keyed by protocol. */
  datatype PerTransport<T> = PerTransport(ws: T, unrel: T, rel: T) {
    function Get(t: Transport): T {
      match t
      case Ws => ws
      case RtcUnreliable => unrel
      case RtcReliable => rel
    }

    function Set(t: Transport, v: T): (r: PerTransport<T>)
      ensures r.Get(t) == v
      ensures forall u: Transport :: u != t ==> r.Get(u) == Get(u)
    {
      match t
      case Ws => this.(ws := v)
      case RtcUnreliable => this.(unrel := v)
      case RtcReliable => this.(rel := v)
    }
  }

  function All<T>(v: T): PerTransport<T> {
    PerTransport(v, v, v)
  }

  /** The `id` of a reply as it arrives: a number or a string. */
  datatype IdField = NumId(n: int) | StrId(s: string)

  /** A decoded reply: its id and the echoed origin timestamp `client_ts`. */
  datatype Pong = Pong(id: IdField, clientTs: int)

  /** What a tick needs to know of one channel: whether it is open, whether
      its checkbox is checked, and whether `send` throws this time. */
  datatype Link = Link(open: bool, checked: bool, sendThrows: bool)

  predicate Attempted(l: Link) {
    l.open && l.checked
  }

  /** A send that is attempted and goes through. */
  predicate Delivers(l: Link) {
    Attempted(l) && !l.sendThrows
  }

  /** The metrics after one tick's sends: each transport that takes the
      probe counts one more sent, and a WebSocket send that throws stops
      both data channels from being tried. Only `sent` changes. */
  function SentBy(m: PerTransport<Metrics>, ws: Link, unrel: Link, rel: Link): (r: PerTransport<Metrics>)
    ensures r.ws == m.ws.(sent := r.ws.sent) && r.unrel == m.unrel.(sent := r.unrel.sent)
    ensures r.rel == m.rel.(sent := r.rel.sent)
    ensures r.ws.sent == m.ws.sent + (if Delivers(ws) then 1 else 0)
    ensures Attempted(ws) && ws.sendThrows ==> r.unrel.sent == m.unrel.sent && r.rel.sent == m.rel.sent
    ensures !Attempted(ws) || !ws.sendThrows ==>
      && r.unrel.sent == m.unrel.sent + (if Delivers(unrel) then 1 else 0)
      && r.rel.sent == m.rel.sent + (if Delivers(rel) then 1 else 0)
  {
    var aborted := Attempted(ws) && ws.sendThrows;
    PerTransport(
      m.ws.(sent := m.ws.sent + if Delivers(ws) then 1 else 0),
      m.unrel.(sent := m.unrel.sent + if !aborted && Delivers(unrel) then 1 else 0),
      m.rel.(sent := m.rel.sent + if !aborted && Delivers(rel) then 1 else 0))
  }

  /** The id a reply is charted under: a string goes through `parseInt`. */
  function NormaliseId(id: IdField): Number {
    match id
    case NumId(n) => Finite(n)
    case StrId(s) => ParseInt(s)
  }

  /** A numeric-string id is charted exactly like the number it spells. */
  lemma StringIdNormalisesLikeNumber(n: int)
    ensures NormaliseId(StrId(IntToDecimal(n))) == NormaliseId(NumId(n))
  {
    DecimalParsesBack(n);
  }

  /** `getPadding`: nothing for a size of zero or less, otherwise `size`
      'X' characters. */
  function GetPadding(size: int): (r: Option<string>)
    ensures r.None? <==> size <= 0
    ensures r.Some? ==> |r.value| == size
    ensures r.Some? ==> forall i :: 0 <= i < |r.value| ==> r.value[i] == 'X'
  {
    if size <= 0 then None else Some(seq(size, _ => 'X'))
  }

  /** `parseInt(selection) || 0`: the padding size chosen in the size menu. */
  function PaddingSize(selection: string): (r: int)
    ensures ParseInt(selection).NaN? ==> r == 0
    ensures ParseInt(selection).Finite? ==> r == ParseInt(selection).value
  {
    match ParseInt(selection)
    case NaN => 0
    case Finite(n) => n
  }

  /** Every size in the menu is used as it is spelled: a selection that is
      the decimal notation of `n` pads to `n`. */
  lemma PaddingReadsBack(n: int)
    ensures PaddingSize(IntToDecimal(n)) == n
  {
    DecimalParsesBack(n);
  }

  /** A selection with no digit after its leading white space and optional
      sign reads as NaN, so it pads to 0 and the probe carries no payload. */
  lemma NoDigitNoPadding(selection: string, id: nat, ts: int)
    requires var u := Unsigned(TrimStart(selection)); u == [] || !IsDigitIn(u[0], 10)
    ensures PaddingSize(selection) == 0
    ensures "payload" !in ProbeMessage(id, ts, PaddingSize(selection)).fields
  {
    NoDigitIsNaN(selection);
    assert PaddingSize(selection) == 0;
    ProbeMessageFields(id, ts, 0);
  }

  /** `parseInt(text) || 100`: the probe interval. Only NaN and 0 fall back
      to 100; a negative value is kept. */
  function TickInterval(text: string): (r: int)
    ensures ParseInt(text).NaN? ==> r == 100
    ensures ParseInt(text).Finite? ==> r == if ParseInt(text).value == 0 then 100 else ParseInt(text).value
  {
    match ParseInt(text)
    case NaN => 100
    case Finite(n) => if n == 0 then 100 else n
  }

  /** Every integer other than 0 typed as the interval is used as it is,
      negative ones included. */
  lemma IntervalReadsBack(i: int)
    requires i != 0
    ensures TickInterval(IntToDecimal(i)) == i
  {
    DecimalParsesBack(i);
  }

  /** The probe object `{type: "ping", id, ts}`, with `payload` only when
      the padding size is positive. */
  function ProbeMessage(id: nat, ts: int, paddingSize: int): Value {
    var base := map["type" := Str("ping"), "id" := Num(id), "ts" := Num(ts)];
    if paddingSize > 0 then Obj(base["payload" := Str(GetPadding(paddingSize).value)])
    else Obj(base)
  }

  /** The probe has exactly the fields type, id and ts, plus a payload of
      the padding exactly when the padding size is positive. */
  lemma ProbeMessageFields(id: nat, ts: int, paddingSize: int)
    ensures var r := ProbeMessage(id, ts, paddingSize);
      && r.Obj?
      && ("payload" in r.fields <==> paddingSize > 0)
      && r.fields.Keys - {"payload"} == {"type", "id", "ts"}
      && r.fields["type"] == Str("ping") && r.fields["id"] == Num(id) && r.fields["ts"] == Num(ts)
      && (paddingSize > 0 ==> r.fields["payload"] == Str(GetPadding(paddingSize).value))
  {
  }

  /** The `msg.type === 'pong'` filter in front of the reply handler, with
      the id and origin timestamp read from the message. */
  function ReadPong(v: Value): (r: Option<Pong>)
    ensures r.Some? ==> v.Obj? && v.Member("type") == Str("pong")
    ensures r.Some? ==> v.Member("client_ts") == Num(r.value.clientTs)
    ensures r.Some? ==> v.Member("id") == match r.value.id { case NumId(n) => Num(n) case StrId(s) => Str(s) }
    ensures (v.Obj? && v.Member("type") == Str("pong") && (v.Member("id").Num? || v.Member("id").Str?)
      && v.Member("client_ts").Num?) ==> r.Some?
  {
    if v.Obj? && v.Member("type") == Str("pong") then
      match (v.Member("id"), v.Member("client_ts"))
      case (Num(n), Num(ts)) => Some(Pong(NumId(n), ts))
      case (Str(s), Num(ts)) => Some(Pong(StrId(s), ts))
      case _ => None
    else None
  }

  /** The transport a data channel's replies are credited to, by its label. */
  function ChannelTransport(name: string): (t: Transport)
    ensures t != Ws
    ensures t == RtcUnreliable <==> name == "unrel"
  {
    if name == "unrel" then RtcUnreliable else RtcReliable
  }

  /** `checkReady`: the start button is enabled once the WebSocket and both
      data channels are open, and is never disabled by this check. */
  function CheckReady(startDisabled: bool, wsOpen: bool, unrelOpen: bool, relOpen: bool): (disabled: bool)
    ensures !disabled <==> !startDisabled || (wsOpen && unrelOpen && relOpen)
  {
    if wsOpen && unrelOpen && relOpen then false else startDisabled
  }

  /** A metrics record after a reply with id `id` and round-trip time `rtt`
      arrived at `now`: one more received, the sample appended to the
      history, the point appended to the series and the series' stale head
      pruned. */
  function Received(m: Metrics, id: Number, rtt: int, now: int, limitId: int): Metrics {
    Metrics(m.sent, m.recv + 1, m.rttHistory + [Sample(now, rtt)],
      DropStaleHead(m.chartData + [Point(id, rtt)], limitId))
  }

  /** A metrics record after the statistics tick cut its history. */
  function Windowed(m: Metrics, now: int): Metrics {
    m.(rttHistory := Window(m.rttHistory, now))
  }

  class Engine {
    var isRunning: bool
    var pingCounter: nat
    var metrics: PerTransport<Metrics>
    /** What each transport's mean and median elements show. */
    var shown: PerTransport<Shown>
    var axis: Axis

    /** The state when the page loads. */
    constructor ()
      ensures !isRunning && pingCounter == 0 && axis == Auto
      ensures metrics == All(EmptyMetrics) && shown == All(Shown(None, None))
    {
      isRunning := false;
      pingCounter := 0;
      metrics := All(EmptyMetrics);
      shown := All(Shown(None, None));
      axis := Auto;
    }

    /** The start button: a full reset of the run, the x-axis set to
        [0, MAX_SAMPLES]; returns the tick interval. The displayed means and
        medians are left as they were. */
    method Start(intervalText: string) returns (interval: int)
      modifies this
      ensures isRunning && pingCounter == 0 && metrics == All(EmptyMetrics)
      ensures axis == Range(0, MAX_SAMPLES) && shown == old(shown)
      ensures interval == TickInterval(intervalText)
    {
      isRunning := true;
      pingCounter := 0;
      metrics := All(EmptyMetrics);
      axis := Range(0, MAX_SAMPLES);
      interval := TickInterval(intervalText);
    }

    /** The stop button: only the running flag changes. */
    method Stop()
      modifies this
      ensures !isRunning && pingCounter == old(pingCounter) && metrics == old(metrics)
      ensures shown == old(shown) && axis == old(axis)
    {
      isRunning := false;
    }

    /** One probe tick. When running: the counter goes up by one and is the
        probe's id, and the probe goes out on the channels as `SendAll`
        says. When stopped nothing changes. Returns the probe built. */
    method Tick(now: int, sizeSelection: string, ws: Link, unrel: Link, rel: Link) returns (probe: Option<Value>)
      modifies this
      ensures isRunning == old(isRunning) && shown == old(shown) && axis == old(axis)
      ensures !old(isRunning) ==> probe == None && pingCounter == old(pingCounter) && metrics == old(metrics)
      ensures old(isRunning) ==> pingCounter == old(pingCounter) + 1
      ensures old(isRunning) ==> probe == Some(ProbeMessage(pingCounter, now, PaddingSize(sizeSelection)))
      ensures old(isRunning) ==> metrics == SentBy(old(metrics), ws, unrel, rel)
    {
      if !isRunning {
        return None;
      }
      pingCounter := pingCounter + 1;
      probe := Some(ProbeMessage(pingCounter, now, PaddingSize(sizeSelection)));
      SendAll(ws, unrel, rel);
    }

    /** The three sends of a tick, in order. A send that does not throw
        counts. A throwing data-channel send is swallowed; a throwing
        WebSocket send is not, and ends the tick before the data channels
        are tried. */
    method SendAll(ws: Link, unrel: Link, rel: Link)
      modifies this
      ensures isRunning == old(isRunning) && pingCounter == old(pingCounter)
      ensures shown == old(shown) && axis == old(axis)
      ensures metrics == SentBy(old(metrics), ws, unrel, rel)
    {
      if Attempted(ws) {
        if ws.sendThrows {
          return;
        }
        metrics := metrics.(ws := metrics.ws.(sent := metrics.ws.sent + 1));
      }
      if Delivers(unrel) {
        metrics := metrics.(unrel := metrics.unrel.(sent := metrics.unrel.sent + 1));
      }
      if Delivers(rel) {
        metrics := metrics.(rel := metrics.rel.(sent := metrics.rel.sent + 1));
      }
    }

    /** `handlePong`: the transport's `recv` goes up by one, the sample
        (now, now - client_ts) joins its history, the point (id, rtt) joins
        its series, whose stale head is then pruned, and the x-axis follows
        the probe counter. Nothing else changes. */
    method HandlePong(proto: Transport, msg: Pong, now: int)
      modifies this
      ensures isRunning == old(isRunning) && pingCounter == old(pingCounter) && shown == old(shown)
      ensures metrics == old(metrics).Set(proto,
        Received(old(metrics.Get(proto)), NormaliseId(msg.id), now - msg.clientTs, now, LimitId(pingCounter)))
      ensures axis == AxisFor(pingCounter)
    {
      var rtt := now - msg.clientTs;
      var packetId := NormaliseId(msg.id);
      Record(proto, packetId, rtt, now);
    }

    /** The body of `handlePong` once the id and round-trip time are known. */
    method Record(proto: Transport, packetId: Number, rtt: int, now: int)
      modifies this
      ensures isRunning == old(isRunning) && pingCounter == old(pingCounter) && shown == old(shown)
      ensures metrics == old(metrics).Set(proto, Received(old(metrics.Get(proto)), packetId, rtt, now, LimitId(pingCounter)))
      ensures axis == AxisFor(pingCounter)
    {
      var m := metrics.Get(proto);
      var chart := ShiftStale(m.chartData + [Point(packetId, rtt)], LimitId(pingCounter));
      var updated := Metrics(m.sent, m.recv + 1, m.rttHistory + [Sample(now, rtt)], chart);
      assert updated == Received(m, packetId, rtt, now, LimitId(pingCounter));
      metrics := metrics.Set(proto, updated);
      axis := AxisFor(pingCounter);
    }

    /** A message arriving on a transport: only a pong reaches the handler. */
    method OnMessage(proto: Transport, v: Value, now: int)
      modifies this
      ensures isRunning == old(isRunning) && pingCounter == old(pingCounter) && shown == old(shown)
      ensures ReadPong(v).None? ==> metrics == old(metrics) && axis == old(axis)
      ensures ReadPong(v).Some? ==>
        && metrics == old(metrics).Set(proto, Received(old(metrics.Get(proto)),
             NormaliseId(ReadPong(v).value.id), now - ReadPong(v).value.clientTs, now, LimitId(pingCounter)))
        && axis == AxisFor(pingCounter)
      ensures forall t: Transport :: t != proto ==> metrics.Get(t) == old(metrics.Get(t))
    {
      var pong := ReadPong(v);
      if pong.Some? {
        HandlePong(proto, pong.value, now);
      }
    }

    /** A data channel's `onmessage`: a pong is credited to the transport
        the channel's label names, exactly as `OnMessage` handles it. */
    method OnChannelMessage(name: string, v: Value, now: int)
      modifies this
      ensures isRunning == old(isRunning) && pingCounter == old(pingCounter) && shown == old(shown)
      ensures metrics.ws == old(metrics.ws)
      ensures ReadPong(v).None? ==> metrics == old(metrics) && axis == old(axis)
      ensures ReadPong(v).Some? ==>
        && metrics == old(metrics).Set(ChannelTransport(name), Received(old(metrics.Get(ChannelTransport(name))),
             NormaliseId(ReadPong(v).value.id), now - ReadPong(v).value.clientTs, now, LimitId(pingCounter)))
        && axis == AxisFor(pingCounter)
    {
      OnMessage(ChannelTransport(name), v, now);
    }

    /** One transport's share of the statistics tick. */
    method Refresh(t: Transport, now: int)
      modifies this
      ensures isRunning == old(isRunning) && pingCounter == old(pingCounter) && axis == old(axis)
      ensures metrics == old(metrics).Set(t, Windowed(old(metrics.Get(t)), now))
      ensures shown == old(shown).Set(t, UpdateStats(old(shown.Get(t)), Values(metrics.Get(t).rttHistory)))
    {
      var m := Windowed(metrics.Get(t), now);
      metrics := metrics.Set(t, m);
      shown := shown.Set(t, UpdateStats(shown.Get(t), Values(m.rttHistory)));
    }

    /** The three-second statistics tick: nothing when stopped; otherwise
        each transport's history is cut to the window and its mean and
        median are recomputed from what is left. */
    method StatsTick(now: int)
      modifies this
      ensures isRunning == old(isRunning) && pingCounter == old(pingCounter) && axis == old(axis)
      ensures !old(isRunning) ==> metrics == old(metrics) && shown == old(shown)
      ensures old(isRunning) ==> metrics == PerTransport(
        Windowed(old(metrics.ws), now), Windowed(old(metrics.unrel), now), Windowed(old(metrics.rel), now))
      ensures old(isRunning) ==> shown == PerTransport(
        UpdateStats(old(shown.ws), Values(metrics.ws.rttHistory)),
        UpdateStats(old(shown.unrel), Values(metrics.unrel.rttHistory)),
        UpdateStats(old(shown.rel), Values(metrics.rel.rttHistory)))
    {
      if !isRunning {
        return;
      }
      Refresh(Ws, now);
      Refresh(RtcUnreliable, now);
      Refresh(RtcReliable, now);
    }
  }
}
