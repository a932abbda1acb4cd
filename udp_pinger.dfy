/** The Android UDP pinger: reading the settings typed into the form, the
    fixed-size "PING <seq>" datagrams, the per-iteration sequence counter and
    the newest-first, length-capped log. Sockets, the clock, the coroutine
    scheduler and the views are parameters or left out. */
module UdpPinger {
  import opened Wrappers
  import opened Numerals

  const DEFAULT_PORT := 50000
  const DEFAULT_INTERVAL_MS := 1000
  const DEFAULT_PACKET_SIZE := 64

  /** The log keeps at most this many characters. */
  const LOG_LIMIT := 5000

  const INT_MIN := -0x8000_0000
  const INT_MAX := 0x7FFF_FFFF
  const LONG_MIN := -0x8000_0000_0000_0000
  const LONG_MAX := 0x7FFF_FFFF_FFFF_FFFF

  /** Kotlin's decimal `toIntOrNull`/`toLongOrNull` for the range [lo, hi]:
      an optional '+' or '-', then one or more digits, and nothing else; a
      value outside the range gives null. */
  function ParseSigned(s: string, lo: int, hi: int): (r: Option<int>)
    ensures r.Some? ==> lo <= r.value <= hi
    ensures r.Some? <==> (s != [] && Unsigned(s) != [] && AllDigitsIn(Unsigned(s), 10)
      && lo <= (if s[0] == '-' then -(ValueOf(Unsigned(s), 10) as int) else ValueOf(Unsigned(s), 10)) <= hi)
    ensures r.Some? ==> s != [] && AllDigitsIn(Unsigned(s), 10) && r.value == if s[0] == '-' then -(ValueOf(Unsigned(s), 10) as int) else ValueOf(Unsigned(s), 10)
  {
    if s == [] then None
    else
      var digits := Unsigned(s);
      if digits == [] || !AllDigitsIn(digits, 10) then None
      else
        var magnitude: int := ValueOf(digits, 10);
        var v := if s[0] == '-' then -magnitude else magnitude;
        if lo <= v <= hi then Some(v) else None
  }

  /** Anything after the digits makes the text unreadable: "12a" is null,
      not 12. */
  lemma TrailingCharRejected(s: string, c: char, lo: int, hi: int)
    requires !IsDigitIn(c, 10)
    ensures ParseSigned(s + [c], lo, hi) == None
  {
    var t := s + [c];
    if t[0] == '-' || t[0] == '+' {
      if s != [] {
        assert Unsigned(t)[|Unsigned(t)| - 1] == c;
      }
    } else {
      assert Unsigned(t)[|t| - 1] == c;
    }
  }

  /** `toIntOrNull`: a value of Kotlin's 32-bit `Int`, or null. */
  function ToIntOrNull(s: string): (r: Option<int>)
    ensures r.Some? ==> INT_MIN <= r.value <= INT_MAX
    ensures ParseSigned(s, LONG_MIN, LONG_MAX).Some? && r.None? ==>
      ParseSigned(s, LONG_MIN, LONG_MAX).value < INT_MIN || ParseSigned(s, LONG_MIN, LONG_MAX).value > INT_MAX
  {
    ParseSigned(s, INT_MIN, INT_MAX)
  }

  /** `toLongOrNull`: a value of Kotlin's 64-bit `Long`, or null; it reads
      every text `toIntOrNull` reads, as the same number. */
  function ToLongOrNull(s: string): (r: Option<int>)
    ensures r.Some? ==> LONG_MIN <= r.value <= LONG_MAX
    ensures ToIntOrNull(s).Some? ==> r == ToIntOrNull(s)
  {
    ParseSigned(s, LONG_MIN, LONG_MAX)
  }

  /** The value the parser gives the decimal notation of `i`, before the
      range check. */
  lemma ReadsAsValue(i: int, lo: int, hi: int)
    ensures var s := IntToDecimal(i);
      ParseSigned(s, lo, hi) == if lo <= i <= hi then Some(i) else None
  {
    var m: nat := if i < 0 then -i else i;
    var s := IntToDecimal(i);
    assert s != [] && Unsigned(s) == NatToDecimal(m) && (s[0] == '-' <==> i < 0) by {
      if i < 0 {
        assert s[0] == '-' && s[1..] == NatToDecimal(m);
      } else {
        SmallRadixDigit(s[0], 10);
      }
    }
    DecimalRoundTrip(m);
  }

  /** Every integer of the range reads back from its decimal notation. */
  lemma SignedReadsBack(i: int, lo: int, hi: int)
    requires lo <= i <= hi
    ensures ParseSigned(IntToDecimal(i), lo, hi) == Some(i)
  {
    ReadsAsValue(i, lo, hi);
  }

  /** A number beyond the range has a notation that does not parse, so the
      form falls back to its default. */
  lemma OutOfRangeRejected(i: int, lo: int, hi: int)
    requires i < lo || hi < i
    ensures ParseSigned(IntToDecimal(i), lo, hi) == None
  {
    ReadsAsValue(i, lo, hi);
  }

  /** Kotlin's `Char.isWhitespace`: the Java white space characters and
      every space, line and paragraph separator. */
  predicate IsWhitespace(c: char) {
    var n := c as int;
    (0x09 <= n <= 0x0D) || (0x1C <= n <= 0x20) || n == 0xA0 || n == 0x1680
    || (0x2000 <= n <= 0x200A) || n == 0x2028 || n == 0x2029 || n == 0x202F
    || n == 0x205F || n == 0x3000
  }

  predicate IsBlank(s: string) {
    forall i :: 0 <= i < |s| ==> IsWhitespace(s[i])
  }

  /** The port, the interval in milliseconds and the datagram size. */
  datatype Settings = Settings(port: int, interval: int, packetSize: int)

  /** The form read with its defaults: an entry that does not parse as a
      number of its type takes the default. */
  function ReadSettings(portText: string, intervalText: string, sizeText: string): (r: Settings)
    ensures ToIntOrNull(portText) == None ==> r.port == DEFAULT_PORT
    ensures ToIntOrNull(portText).Some? ==> r.port == ToIntOrNull(portText).value
    ensures ToLongOrNull(intervalText) == None ==> r.interval == DEFAULT_INTERVAL_MS
    ensures ToLongOrNull(intervalText).Some? ==> r.interval == ToLongOrNull(intervalText).value
    ensures ToIntOrNull(sizeText) == None ==> r.packetSize == DEFAULT_PACKET_SIZE
    ensures ToIntOrNull(sizeText).Some? ==> r.packetSize == ToIntOrNull(sizeText).value
  {
    Settings(ToIntOrNull(portText).GetOr(DEFAULT_PORT),
             ToLongOrNull(intervalText).GetOr(DEFAULT_INTERVAL_MS),
             ToIntOrNull(sizeText).GetOr(DEFAULT_PACKET_SIZE))
  }

  /** Empty interval and size fields take the defaults; a typed number is
      used as it is. */
  lemma FormDefaults(port: int)
    requires INT_MIN <= port <= INT_MAX
    ensures ReadSettings(IntToDecimal(port), "", "") == Settings(port, DEFAULT_INTERVAL_MS, DEFAULT_PACKET_SIZE)
  {
    SignedReadsBack(port, INT_MIN, INT_MAX);
  }

  /** A port the datagram's socket address accepts. */
  predicate ValidPort(p: int) {
    0 <= p <= 65535
  }

  /** Settings the loop can frame a datagram with: allocating a negative
      size and addressing an invalid port both throw. */
  predicate Frameable(s: Settings) {
    s.packetSize >= 0 && ValidPort(s.port)
  }

  /** The text of probe number `n`. */
  function PingText(n: int): string {
    "PING " + IntToDecimal(n)
  }

  /** A Kotlin `Byte`, by its unsigned value. */
  newtype byte = x: int | 0 <= x < 256

  predicate IsAscii(s: string) {
    forall i :: 0 <= i < |s| ==> s[i] as int < 128
  }

  /** UTF-8 encoding of an ASCII string: one byte per character. */
  function AsciiBytes(s: string): (r: seq<byte>)
    requires IsAscii(s)
    ensures |r| == |s| && forall i :: 0 <= i < |s| ==> r[i] as int == s[i] as int
  {
    seq(|s|, i requires 0 <= i < |s| => s[i] as int as byte)
  }

  lemma PingTextIsAscii(n: int)
    ensures IsAscii(PingText(n))
  {
    var m: nat := if n < 0 then -n else n;
    var digits := NatToDecimal(m);
    assert forall i :: 0 <= i < |digits| ==> IsDigitIn(digits[i], 10);
  }

  /** The bytes of probe number `n`. */
  function PingBytes(n: int): seq<byte> {
    PingTextIsAscii(n);
    AsciiBytes(PingText(n))
  }

  /** `d` is the `size`-byte datagram carrying `msg`: the message cut to
      `size` bytes, then zero bytes up to `size`. */
  predicate Framed(d: seq<byte>, msg: seq<byte>, size: int) {
    && |d| == size
    && (forall i :: 0 <= i < |d| && i < |msg| ==> d[i] == msg[i])
    && (forall i :: |msg| <= i < |d| ==> d[i] == 0)
  }

  /** The datagram of `msg` at `size` bytes. */
  function Frame(msg: seq<byte>, size: nat): (d: seq<byte>)
    ensures Framed(d, msg, size)
  {
    seq(size, i requires 0 <= i < size => if i < |msg| then msg[i] else 0)
  }

  /** The framing leaves no freedom: one datagram per message and size. */
  lemma FramedUnique(d: seq<byte>, e: seq<byte>, msg: seq<byte>, size: int)
    requires Framed(d, msg, size) && Framed(e, msg, size)
    ensures d == e
  {
  }

  /** A message no longer than the datagram is read back from its head. */
  lemma FramedMessageReadable(d: seq<byte>, msg: seq<byte>, size: int)
    requires Framed(d, msg, size) && |msg| <= size
    ensures d[..|msg|] == msg
  {
  }

  /** A zeroed `ByteArray(packetSize)` with the message copied over its head. */
  method BuildDatagram(msg: seq<byte>, packetSize: nat) returns (d: array<byte>)
    ensures fresh(d) && Framed(d[..], msg, packetSize)
  {
    d := new byte[packetSize](_ => 0);
    var n := if |msg| <= packetSize then |msg| else packetSize;
    for i := 0 to n
      invariant forall k :: 0 <= k < i ==> d[k] == msg[k]
      invariant forall k :: i <= k < packetSize ==> d[k] == 0
    {
      d[i] := msg[i];
    }
  }

  /** The log capped to its first LOG_LIMIT characters. */
  function Capped(s: string): (r: string)
    ensures |r| <= LOG_LIMIT && |r| <= |s| && r == s[..|r|]
    ensures |s| <= LOG_LIMIT ==> r == s
    ensures |s| > LOG_LIMIT ==> r == s[..LOG_LIMIT]
  {
    if |s| > LOG_LIMIT then s[..LOG_LIMIT] else s
  }

  /** `appendLog`: the message on its own line in front of the old log, the
      whole cut to LOG_LIMIT characters. */
  function Prepend(log: string, message: string): (r: string)
    ensures |r| == if |message| + 1 + |log| > LOG_LIMIT then LOG_LIMIT else |message| + 1 + |log|
    ensures r == (message + "\n" + log)[..|r|]
    ensures |message| < LOG_LIMIT ==> |r| > |message| && r[..|message| + 1] == message + "\n"
  {
    Capped(message + "\n" + log)
  }

  /** Capping twice is capping once. */
  lemma CappedAbsorbs(x: string, y: string)
    ensures Capped(x + Capped(y)) == Capped(x + y)
  {
    if |y| > LOG_LIMIT {
      if |x| < LOG_LIMIT {
        assert (x + Capped(y))[..LOG_LIMIT] == (x + y)[..LOG_LIMIT];
      } else {
        assert (x + Capped(y))[..LOG_LIMIT] == x[..LOG_LIMIT] == (x + y)[..LOG_LIMIT];
      }
    }
  }

  /** The log after appending `messages` in order, oldest first. */
  function LogAfter(log: string, messages: seq<string>): string {
    if messages == [] then log
    else Prepend(LogAfter(log, messages[..|messages| - 1]), messages[|messages| - 1])
  }

  /** Appending one more line to a run of appends. */
  lemma LogAfterStep(log: string, messages: seq<string>, m: string)
    ensures LogAfter(log, messages + [m]) == Prepend(LogAfter(log, messages), m)
  {
    assert (messages + [m])[..|messages|] == messages;
  }

  /** The lines of one more iteration. */
  lemma AttemptLinesStep(attempts: seq<Attempt>, i: nat)
    requires i < |attempts|
    ensures AttemptLines(attempts[..i + 1]) == AttemptLines(attempts[..i]) + [AttemptLine(i + 1, attempts[i])]
  {
  }

  /** The messages one per line, newest first. */
  function NewestFirst(messages: seq<string>): string {
    if messages == [] then ""
    else messages[|messages| - 1] + "\n" + NewestFirst(messages[..|messages| - 1])
  }

  /** However many lines were appended, the log is the head of all of them,
      newest first, followed by the log it started from. */
  lemma {:induction false} LogIsNewestFirst(log: string, messages: seq<string>)
    requires |log| <= LOG_LIMIT
    ensures LogAfter(log, messages) == Capped(NewestFirst(messages) + log)
  {
    if messages != [] {
      var init, m := messages[..|messages| - 1], messages[|messages| - 1];
      LogIsNewestFirst(log, init);
      CappedAbsorbs(m + "\n", NewestFirst(init) + log);
      assert m + "\n" + (NewestFirst(init) + log) == NewestFirst(messages) + log;
    }
  }

  /** The outcome of one iteration's send and receive: a reply read between
      two clock readings, the one-second receive timeout, or another
      exception with its message. */
  datatype Attempt = Answered(startMs: int, endMs: int, data: string) | TimedOut | Failed(error: string)

  /** The log line of iteration `n`. */
  function AttemptLine(n: int, a: Attempt): string {
    "#" + IntToDecimal(n) + ": " + Outcome(a)
  }

  /** Every log line opens with its iteration's number, `#n: `. */
  lemma AttemptLineNumbered(n: int, a: Attempt)
    ensures var head := "#" + IntToDecimal(n) + ": ";
      |AttemptLine(n, a)| > |head| && AttemptLine(n, a)[..|head|] == head
  {
    var head := "#" + IntToDecimal(n) + ": ";
    assert AttemptLine(n, a) == head + Outcome(a);
  }

  /** What a log line says about one iteration, after its number. */
  function Outcome(a: Attempt): string {
    match a
    case Answered(startMs, endMs, data) => "RTT=" + IntToDecimal(endMs - startMs) + "ms (" + data + ")"
    case TimedOut => "Timeout"
    case Failed(error) => "Error - " + error
  }

  /** The lines of a run's iterations, numbered from 1. */
  function AttemptLines(attempts: seq<Attempt>): seq<string> {
    seq(|attempts|, j requires 0 <= j < |attempts| => AttemptLine(j + 1, attempts[j]))
  }

  /** The datagrams of the first `n` iterations, in sending order. */
  function Datagrams(n: nat, size: nat): seq<seq<byte>> {
    if n == 0 then [] else Datagrams(n - 1, size) + [Frame(PingBytes(n), size)]
  }

  /** Iteration j (from 0) sends the frame of "PING j+1". */
  lemma {:induction false} DatagramsNumbered(n: nat, size: nat)
    ensures |Datagrams(n, size)| == n
    ensures forall j :: 0 <= j < n ==> Datagrams(n, size)[j] == Frame(PingBytes(j + 1), size)
  {
    if n > 0 {
      DatagramsNumbered(n - 1, size);
    }
  }

  /** The pinger screen: its log text and whether it is pinging (start
      button and inputs disabled, stop button enabled). */
  class PingScreen {
    var log: string
    var pinging: bool

    constructor ()
      ensures log == "" && !pinging
    {
      log := "";
      pinging := false;
    }

    method AppendLog(message: string)
      modifies this
      ensures log == Prepend(old(log), message) && pinging == old(pinging)
    {
      log := Prepend(log, message);
    }

    /** The start button: a blank address or port is refused with a log
        line and nothing else; otherwise the form is read with its defaults
        and the screen switches to pinging. */
    method StartPing(ip: string, portText: string, intervalText: string, sizeText: string)
      returns (settings: Option<Settings>)
      modifies this
      ensures IsBlank(ip) || IsBlank(portText) ==>
        settings == None && pinging == old(pinging) && log == Prepend(old(log), "Invalid IP or Port")
      ensures !IsBlank(ip) && !IsBlank(portText) ==>
        settings == Some(ReadSettings(portText, intervalText, sizeText)) && pinging && log == old(log)
    {
      if IsBlank(ip) || IsBlank(portText) {
        AppendLog("Invalid IP or Port");
        return None;
      }
      settings := Some(ReadSettings(portText, intervalText, sizeText));
      pinging := true;
    }

    /** The stop button, also used after a socket error. */
    method StopPing()
      modifies this
      ensures !pinging && log == Prepend(old(log), "Stopped.")
    {
      pinging := false;
      AppendLog("Stopped.");
    }

    /** One iteration of the ping job that gets past framing: the datagram
        for probe `n`, and the log line of its outcome. */
    method SendProbe(packetSize: nat, n: int, outcome: Attempt) returns (sent: seq<byte>)
      modifies this
      ensures sent == Frame(PingBytes(n), packetSize)
      ensures pinging == old(pinging) && log == Prepend(old(log), AttemptLine(n, outcome))
    {
      var message := PingBytes(n);
      var sendData := BuildDatagram(message, packetSize);
      sent := sendData[..];
      FramedUnique(sent, Frame(message, packetSize), message, packetSize);
      AppendLog(AttemptLine(n, outcome));
    }

    /** The ping job, run for as many iterations as `attempts` has before it
        is cancelled. Iteration `j` (from 0) sends probe number `j + 1`. A
        failure to open the socket or resolve the address (`setupError`),
        or settings no datagram can be framed with (the exception's message
        is `framingError`), end the job with "Socket Error: ..." and a stop. */
    method RunPingJob(settings: Settings, setupError: Option<string>, framingError: string, attempts: seq<Attempt>)
      returns (datagrams: seq<seq<byte>>)
      modifies this
      ensures setupError.Some? ==>
        && datagrams == [] && !pinging
        && log == Prepend(Prepend(old(log), "Socket Error: " + setupError.value), "Stopped.")
      ensures setupError.None? && |attempts| > 0 && !Frameable(settings) ==>
        && datagrams == [] && !pinging
        && log == Prepend(Prepend(old(log), "Socket Error: " + framingError), "Stopped.")
      ensures setupError.None? && (|attempts| == 0 || Frameable(settings)) ==>
        && pinging == old(pinging)
        && |datagrams| == |attempts|
        && (forall j :: 0 <= j < |datagrams| ==> datagrams[j] == Frame(PingBytes(j + 1), settings.packetSize))
        && log == LogAfter(old(log), AttemptLines(attempts))
    {
      if setupError.Some? {
        datagrams := [];
        AppendLog("Socket Error: " + setupError.value);
        StopPing();
        return;
      }
      datagrams := PingLoop(settings, framingError, attempts);
    }

    /** The `while (isActive)` loop once the socket is open: one probe per
        iteration, until a framing error ends the job. */
    method PingLoop(settings: Settings, framingError: string, attempts: seq<Attempt>)
      returns (datagrams: seq<seq<byte>>)
      modifies this
      ensures |attempts| > 0 && !Frameable(settings) ==>
        && datagrams == [] && !pinging
        && log == Prepend(Prepend(old(log), "Socket Error: " + framingError), "Stopped.")
      ensures |attempts| == 0 || Frameable(settings) ==>
        && pinging == old(pinging)
        && |datagrams| == |attempts|
        && (forall j :: 0 <= j < |datagrams| ==> datagrams[j] == Frame(PingBytes(j + 1), settings.packetSize))
        && log == LogAfter(old(log), AttemptLines(attempts))
    {
      datagrams := [];
      var counter := 0;
      var i := 0;
      ghost var lines: seq<string> := [];
      while i < |attempts|
        invariant 0 <= i <= |attempts| && counter == i
        invariant i > 0 ==> Frameable(settings)
        invariant i == 0 ==> log == old(log)
        invariant pinging == old(pinging)
        invariant i == 0 ==> datagrams == []
        invariant i > 0 ==> datagrams == Datagrams(i, settings.packetSize)
        invariant lines == AttemptLines(attempts[..i])
        invariant log == LogAfter(old(log), lines)
      {
        counter := counter + 1;
        if settings.packetSize < 0 || !ValidPort(settings.port) {
          AppendLog("Socket Error: " + framingError);
          StopPing();
          return;
        }
        var sendData := SendProbe(settings.packetSize, counter, attempts[i]);
        datagrams := datagrams + [sendData];
        AttemptLinesStep(attempts, i);
        LogAfterStep(old(log), lines, AttemptLine(counter, attempts[i]));
        lines := lines + [AttemptLine(counter, attempts[i])];
        i := i + 1;
      }
      assert attempts[..i] == attempts;
      if i > 0 {
        DatagramsNumbered(i, settings.packetSize);
      }
    }
  }
}
