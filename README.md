# WebSocket vs WebRTC latency benchmark, modelled in Dafny

The benchmark measures round-trip times over three transports at once. These
are a WebSocket, an unordered data channel without retransmissions, and an
ordered reliable data channel. A browser client sends numbered `ping`
probes on each transport. A C++ echo server turns every ping into a `pong`.
The client records the round-trip time of each pong. It also keeps a
three-second rolling mean and median per transport, and a chart series per
transport. A separate Android app sends fixed-size "PING <seq>" UDP
datagrams and logs each round-trip time.

The project models the sequential logic of these three programs:

- `static/client.js`, the measurement engine.
  - `ProbeEngine.Engine` is a class holding the run flag, the probe counter,
    the three metrics records, the displayed statistics and the x-axis.
  - Its methods are the start and stop buttons, the probe tick, the reply
    handler and the statistics tick.
  - The pure parts are separate modules: `RollingStats` (window filter,
    mean, median, `updateStats`), `SeriesBuffer` (chart pruning and
    axis range) and `JsNumbers` (`parseInt` as section 19.2.5 of
    ECMAScript 2023 defines it, with NaN).
- `cpp_server/main.cpp`, the echo rule in `EchoServer`.
  - The backpressure gate.
  - The ping object rewritten field by field into a pong.
  - The WebSocket and data-channel handlers.
  - The `--backpressure` argument scan.
- `MainActivity.kt`, the pinger in `UdpPinger`.
  - Kotlin's `toIntOrNull` and `toLongOrNull`.
  - The form defaults and the blank-input check.
  - The zero-padded datagram, built in an array.
  - The `seq` loop.
  - The newest-first log capped at 5000 characters (`PingScreen` class).
- `RoundTrip` ties the client and the server together. A pong made from a
  probe is read back by the client as that probe's id and origin time,
  whatever the server clock says.

Clock readings are parameters, and so are:

- whether a channel is open or checked, and whether its `send` throws;
- the result of parsing a message (`None` when the parser throws);
- the outcome of each UDP send and receive;
- the text of exceptions.

JSON values are the datatype `Json.Value`, with objects as
`map<string, Value>`.

## Model

| member | source | states |
|---|---|---|
| RollingStats.Window | static/client.js:204-207 | the filtered history is never longer than the history |
| RollingStats.WindowMembers | static/client.js:204-207 | a sample survives the statistics tick iff it was in the history and its time is after now - 3000 |
| RollingStats.WindowConcat | static/client.js:207 | filtering keeps relative order: the filter of a concatenation is the concatenation of the filters |
| RollingStats.WindowKeepsNewest | static/client.js:252 | a sample recorded at the current time is always kept, at the end |
| RollingStats.WindowOfWindow | static/client.js:201-207 | filtering at an earlier time and then at a later one equals filtering once at the later time |
| RollingStats.Values | static/client.js:209 | the value list has one entry per sample, the i-th being the i-th sample's round-trip time |
| RollingStats.SumWithin | static/client.js:189 | the sum of n values within [lo, hi] lies within [n*lo, n*hi] |
| RollingStats.AverageWithin | static/client.js:189-190 | the mean of a non-empty list lies between any lower and upper bound of its values |
| RollingStats.AverageRestoresSum | static/client.js:189-190 | the mean times the number of values is their sum |
| RollingStats.AverageOfThree | static/client.js:189-190 | the mean of three values is their sum over 3 |
| RollingStats.AverageOfFour | static/client.js:189-190 | the mean of four values is their sum over 4 |
| RollingStats.Insert | static/client.js:194 | inserting into an ascending list gives an ascending list with one more element and the same multiset plus that element |
| RollingStats.SortAscending | static/client.js:194 | the sorted copy is ascending and a permutation of the input; the input itself is a value and is not reordered |
| RollingStats.AscendingPermutationUnique | static/client.js:194 | two ascending permutations of the same values are equal, so the sorted copy does not depend on the sorting algorithm |
| RollingStats.Middle | static/client.js:194-196 | the middle of a sorted list is the mean of its elements at floor((n-1)/2) and floor(n/2): the single middle element for an odd count, the mean of the two middle ones for an even count |
| RollingStats.MedianOfPermutation | static/client.js:193-196 | the median does not depend on the order of the values |
| RollingStats.MedianOfAscending | static/client.js:195-196 | the median of an already sorted list is its middle element or middle pair's mean |
| RollingStats.MedianOfRearranged | static/client.js:194-196 | the median of any arrangement of a sorted list is the sorted list's middle |
| RollingStats.MedianOfThree | static/client.js:195-196 | an odd count gives the middle value of the sorted copy: three values whose first is the largest and whose other two ascend (such as 30, 10, 20) have the last one as median |
| RollingStats.MedianOfFour | static/client.js:195-196 | an even count gives the mean of the two middle values: four ascending values (such as 10, 20, 30, 40) have the mean of the second and third as median |
| RollingStats.MedianSplitsValues | static/client.js:193-196 | at least half of the values are at most the median and at least half are at least the median |
| RollingStats.UpdateStats | static/client.js:185-198 | an empty list leaves both displayed values as they were; otherwise the display shows exactly the mean and the median |
| SeriesBuffer.StaleCount | static/client.js:260 | the counted head points all have ids below the limit, and the point after them (if any) does not |
| SeriesBuffer.DropStaleHead | static/client.js:259-262 | pruning returns a suffix of the series, removes only points whose id is below the limit, and leaves an empty series or one whose head is not below the limit |
| SeriesBuffer.ShiftStale | static/client.js:259-262 | the shift loop computes exactly the pruned series |
| SeriesBuffer.FreshHeadKeepsAll | static/client.js:260 | a head that is not stale (or whose id is NaN) keeps the whole series, stale points behind it included |
| SeriesBuffer.OrderedSeriesHasNoStalePoint | static/client.js:255-262 | when ids arrive in order, no point below the limit is left anywhere in the series |
| SeriesBuffer.OrderedSeriesBounded | static/client.js:259-262 | when ids arrive strictly increasing and no later than the counter, the pruned series has at most 111 points |
| SeriesBuffer.AxisFor | static/client.js:267-268 | the x-axis spans exactly 100 probes, contains the counter, ends at the counter once it reaches 100 and is [0, 100] before |
| JsNumbers.LeadingSpace | static/client.js:224 | the counted leading characters are all StrWhiteSpace, and the character after them (if any) is not |
| JsNumbers.TrimStart | static/client.js:224 | parseInt's leading white space is removed and nothing else: the result is a suffix, every removed character is white space and the result does not start with white space |
| JsNumbers.DigitRun | static/client.js:224 | parseInt reads the longest prefix of digits of the radix |
| JsNumbers.Magnitude | static/client.js:224 | a numeral without sign never reads as a negative number |
| JsNumbers.DecimalParsesBack | static/client.js:224 | parseInt reads every integer back from its decimal notation |
| JsNumbers.TrimStartSkips | static/client.js:224 | any run of white space in front of a text that does not start with white space is removed, leaving exactly that text |
| JsNumbers.ParseIntSkipsWhiteSpace | static/client.js:224 | parseInt reads a text with leading white space as it reads the text without it |
| JsNumbers.DigitRunOfPrefix | static/client.js:224 | the digit run of digits followed by a non-digit (or nothing) is exactly those digits |
| JsNumbers.MagnitudeReadsDecimalPrefix | static/client.js:224 | an unsigned numeral without "0x" reads as the decimal value of its leading digits, whatever follows them |
| JsNumbers.MagnitudeReadsHexPrefix | static/client.js:224 | "0x" or "0X" followed by hexadecimal digits reads as their base-16 value, whatever follows them |
| JsNumbers.ParseIntReadsDecimalPrefix | static/client.js:224 | parseInt of decimal digits followed by a non-digit tail (such as "12px") is the value of the digits |
| JsNumbers.ParseIntReadsSignedPrefix | static/client.js:224 | parseInt of "-" or "+" then decimal digits then a non-digit tail is the negated or plain value of the digits |
| JsNumbers.NoDigitIsNaN | static/client.js:224 | a text with no digit after its leading white space and optional sign reads as NaN |
| Numerals.NatToDecimal | udp_rtt/android_project/app/src/main/java/com/example/udprtt/MainActivity.kt:84 | the decimal notation of a natural number is one or more digits with no leading zero |
| Numerals.DecimalRoundTrip | udp_rtt/android_project/app/src/main/java/com/example/udprtt/MainActivity.kt:84 | reading the decimal notation of n gives n |
| ProbeEngine.StringIdNormalisesLikeNumber | static/client.js:224 | a reply whose id is the string of a number is charted at the same x as that number |
| ProbeEngine.GetPadding | static/client.js:278-281 | no padding for a size of zero or less, otherwise exactly size 'X' characters |
| ProbeEngine.PaddingSize | static/client.js:310 | an unreadable size selection means no padding, otherwise the parsed number |
| ProbeEngine.PaddingReadsBack | static/client.js:310 | a size selection that is the decimal notation of n pads to n |
| ProbeEngine.NoDigitNoPadding | static/client.js:310-320 | a selection with no digit after white space and sign pads to 0, and the probe then has no payload field |
| ProbeEngine.TickInterval | static/client.js:354 | an interval that reads as NaN or 0 becomes 100 ms, any other parsed value is used |
| ProbeEngine.IntervalReadsBack | static/client.js:354 | every non-zero integer typed as the interval is used unchanged, negative ones included |
| ProbeEngine.ProbeMessageFields | static/client.js:312-320 | the probe has type "ping", the given id and ts, and a payload exactly when the padding size is positive, that payload being the padding |
| ProbeEngine.ReadPong | static/client.js:101-106 | a reply is handled exactly when it is an object whose type is "pong", whose id is a number or a string and whose client_ts is a number; it is handled with the id and client_ts it carries |
| ProbeEngine.ChannelTransport | static/client.js:136 | a data channel's replies are never credited to the WebSocket, and go to the unreliable channel exactly when the label is "unrel" |
| ProbeEngine.CheckReady | static/client.js:162-179 | the start button becomes enabled once the WebSocket and both data channels are open, and the check never disables it |
| ProbeEngine.Engine.constructor | static/client.js:38-44 | at load the engine is stopped, the counter is 0, every metrics record is empty and nothing is displayed |
| ProbeEngine.Engine.Start | static/client.js:284-303 | start sets running, zeroes the counter, empties every metrics record, sets the axis to [0, 100] and returns the parsed interval; the displayed statistics stay |
| ProbeEngine.Engine.Stop | static/client.js:357-363 | stop clears only the running flag; counters, buffers, statistics and axis are kept |
| ProbeEngine.Engine.Tick | static/client.js:305-322 | when stopped nothing changes; when running the counter rises by one and is the probe id, the probe carries the padding size read from the size menu, and the metrics become those after the tick's sends |
| ProbeEngine.Engine.SendAll | static/client.js:325-352 | the metrics become those `SentBy` gives for the three links; the running flag, counter, displayed statistics and axis stay as they were |
| ProbeEngine.SentBy | static/client.js:325-352 | the WebSocket count rises exactly when its send is attempted and does not throw; a throwing WebSocket send leaves both data-channel counts alone; otherwise each data-channel count rises exactly when its send goes through; nothing but the sent counts changes |
| ProbeEngine.Engine.HandlePong | static/client.js:220-271 | only the replying transport changes: recv rises by one, one sample (now, now - client_ts) is appended to its history, one point (normalised id, rtt) to its series, which is then pruned, and the axis follows the counter |
| ProbeEngine.Engine.Record | static/client.js:226-268 | given the id and round-trip time, only the replying transport's metrics change, to recv + 1, the sample (now, rtt) appended, the point (id, rtt) appended and the stale head pruned; the axis follows the counter |
| ProbeEngine.Engine.OnMessage | static/client.js:101-106 | a message that is not a pong changes nothing; a pong changes only the replying transport's metrics, which become those of the reply handler for its id, its round-trip time now - client_ts and the counter's stale limit, and the axis follows the counter |
| ProbeEngine.Engine.OnChannelMessage | static/client.js:132-138 | a data-channel pong is handled like a WebSocket pong but credited to the transport the channel label names; the WebSocket metrics never change |
| ProbeEngine.Engine.Refresh | static/client.js:207-216 | one transport's history is cut to the window and its display updated from the values left; the other transports are untouched |
| ProbeEngine.Engine.StatsTick | static/client.js:201-218 | when stopped nothing changes; otherwise every transport's history becomes its window and its display shows that window's statistics |
| EchoServer.PongUnique | cpp_server/main.cpp:113-117 | the pong is fully determined by the ping and the server time |
| EchoServer.Respond | cpp_server/main.cpp:111-119 | there is a reply exactly when the message parsed and is a ping; the reply is the same object with type "pong", client_ts the original ts (null if absent), server_ts now and every other field echoed |
| EchoServer.OnWsMessage | cpp_server/main.cpp:104-120 | when enabled backpressure is exceeded nothing is sent; otherwise one reply goes out exactly for a ping, with the pong body and the request's opcode |
| EchoServer.OnDcMessage | cpp_server/main.cpp:194-212 | gated messages and binary messages get no reply; a text ping gets exactly its pong |
| EchoServer.GateMonotone | cpp_server/main.cpp:106 | without backpressure nothing is dropped, a buffer of exactly 32768 bytes is not dropped, and a drop at some buffer size means a drop at every larger one |
| EchoServer.ParseArgs | cpp_server/main.cpp:48-54 | backpressure is enabled exactly when some argument after the program name is "--backpressure" |
| UdpPinger.ParseSigned | udp_rtt/android_project/app/src/main/java/com/example/udprtt/MainActivity.kt:61-63 | a text parses exactly when it is an optional sign followed by one or more decimal digits whose value, negated for "-", lies within the type's range, and the result is that value |
| UdpPinger.TrailingCharRejected | udp_rtt/android_project/app/src/main/java/com/example/udprtt/MainActivity.kt:61-63 | a text with any trailing non-digit (such as "80x") does not parse |
| UdpPinger.ToIntOrNull | udp_rtt/android_project/app/src/main/java/com/example/udprtt/MainActivity.kt:61-63 | a result lies within the 32-bit range, and a number that parses as a 64-bit value but not as a 32-bit one lies outside it |
| UdpPinger.ToLongOrNull | udp_rtt/android_project/app/src/main/java/com/example/udprtt/MainActivity.kt:62 | a result lies within the 64-bit range, and every text that parses as a 32-bit value parses as the same 64-bit value |
| UdpPinger.ReadsAsValue | udp_rtt/android_project/app/src/main/java/com/example/udprtt/MainActivity.kt:61-63 | the decimal notation of any number parses to that number when it lies within the type's range and to nothing otherwise |
| UdpPinger.SignedReadsBack | udp_rtt/android_project/app/src/main/java/com/example/udprtt/MainActivity.kt:61-63 | every number within the type's range reads back from its decimal notation |
| UdpPinger.OutOfRangeRejected | udp_rtt/android_project/app/src/main/java/com/example/udprtt/MainActivity.kt:61-63 | a number outside the type's range does not parse, so the field takes its default |
| UdpPinger.ReadSettings | udp_rtt/android_project/app/src/main/java/com/example/udprtt/MainActivity.kt:61-63 | port and size are the 32-bit values and interval the 64-bit value the texts parse to, or 50000, 1000 and 64 when they do not parse |
| UdpPinger.FormDefaults | udp_rtt/android_project/app/src/main/java/com/example/udprtt/MainActivity.kt:62-63 | empty interval and size fields give 1000 ms and 64 bytes, and a typed port is used as it is |
| UdpPinger.AsciiBytes | udp_rtt/android_project/app/src/main/java/com/example/udprtt/MainActivity.kt:85 | the encoding of an ASCII message has one byte per character, equal to its code |
| UdpPinger.PingTextIsAscii | udp_rtt/android_project/app/src/main/java/com/example/udprtt/MainActivity.kt:84-85 | the probe text is ASCII, so its encoding is one byte per character |
| UdpPinger.Frame | udp_rtt/android_project/app/src/main/java/com/example/udprtt/MainActivity.kt:86-91 | the datagram has exactly the requested size, starts with the message cut to that size and is zero after it |
| UdpPinger.FramedUnique | udp_rtt/android_project/app/src/main/java/com/example/udprtt/MainActivity.kt:86-91 | there is exactly one datagram for a message and a size |
| UdpPinger.FramedMessageReadable | udp_rtt/android_project/app/src/main/java/com/example/udprtt/MainActivity.kt:86-91 | a message no longer than the datagram is its head |
| UdpPinger.BuildDatagram | udp_rtt/android_project/app/src/main/java/com/example/udprtt/MainActivity.kt:86-91 | the datagram is exactly packetSize bytes: the message cut to that length, then zeros |
| UdpPinger.Capped | udp_rtt/android_project/app/src/main/java/com/example/udprtt/MainActivity.kt:151 | a log of at most 5000 characters is kept whole; a longer one is cut to exactly its first 5000 characters |
| UdpPinger.Prepend | udp_rtt/android_project/app/src/main/java/com/example/udprtt/MainActivity.kt:147-152 | the new log is a prefix of message + newline + old log, of exactly that length or 5000 characters when that length is larger, and starts with the message line when the message is shorter than the cap |
| UdpPinger.CappedAbsorbs | udp_rtt/android_project/app/src/main/java/com/example/udprtt/MainActivity.kt:151 | capping the old log before prepending changes nothing once the result is capped |
| UdpPinger.LogIsNewestFirst | udp_rtt/android_project/app/src/main/java/com/example/udprtt/MainActivity.kt:147-152 | after any number of appends the log is the first 5000 characters of all messages, newest first, followed by the starting log |
| UdpPinger.AttemptLineNumbered | udp_rtt/android_project/app/src/main/java/com/example/udprtt/MainActivity.kt:107-115 | every outcome line opens with "#n: " for its iteration number n |
| UdpPinger.PingScreen.AppendLog | udp_rtt/android_project/app/src/main/java/com/example/udprtt/MainActivity.kt:147-152 | the log becomes the prepended and capped log |
| UdpPinger.PingScreen.StartPing | udp_rtt/android_project/app/src/main/java/com/example/udprtt/MainActivity.kt:52-71 | a blank address or port logs "Invalid IP or Port" and changes nothing else; otherwise the settings are read with their defaults and the screen is pinging, with the log unchanged |
| UdpPinger.PingScreen.StopPing | udp_rtt/android_project/app/src/main/java/com/example/udprtt/MainActivity.kt:133-145 | the screen stops pinging and "Stopped." is logged |
| UdpPinger.PingScreen.constructor | udp_rtt/android_project/app/src/main/java/com/example/udprtt/MainActivity.kt:25-27 | the screen starts with no ping job and an empty log; the empty log is the log view's initial text, which comes from the layout resource rather than from this file |
| UdpPinger.PingScreen.SendProbe | udp_rtt/android_project/app/src/main/java/com/example/udprtt/MainActivity.kt:83-117 | probe n is sent as the datagram framing "PING n" at the packet size, and exactly its outcome line is logged, newest first |
| UdpPinger.PingScreen.RunPingJob | udp_rtt/android_project/app/src/main/java/com/example/udprtt/MainActivity.kt:73-130 | iteration j sends a datagram framing "PING j+1" and logs its numbered RTT, timeout or error line, whatever the outcome; a setup error, or a negative size or invalid port, logs "Socket Error: ..." then stops |
| UdpPinger.PingScreen.PingLoop | udp_rtt/android_project/app/src/main/java/com/example/udprtt/MainActivity.kt:82-126 | once the socket is open, iteration j sends the datagram framing "PING j+1" and logs its numbered line; a negative size or invalid port logs "Socket Error: ..." and stops before anything is sent |
| UdpPinger.DatagramsNumbered | udp_rtt/android_project/app/src/main/java/com/example/udprtt/MainActivity.kt:82-92 | the n datagrams of a run are numbered 1 to n in sending order, each framing "PING j" at the packet size |
| RoundTrip.PongCarriesProbe | cpp_server/main.cpp:112-117 | the client reads the pong of probe (id, ts) back as that id and ts, whatever the server time |
| RoundTrip.ProbeIsAnswered | static/client.js:312-316 | every probe the client builds is a ping the server answers |
| RoundTrip.PongIsNotAnswered | cpp_server/main.cpp:113 | a pong is not a ping, so the server never answers its own replies |

## Left out

- Connection setup is not modelled:
  - `connectWS` and `connectWebRTC`;
  - the SDP offer/answer exchange at `POST /offer` and ICE;
  - peer connection lifetime.
  These are network plumbing over the browser, uWebSockets and libdatachannel.
- Static file serving, the server's statistics thread and its mutex, and the
  registries of open sockets and channels are not modelled. They are I/O and
  cross-thread bookkeeping.
- `udp_rtt/server.py` is not part of this model. It is a plain UDP echo loop.
- Browser presentation is not modelled:
  - DOM text and CSS classes;
  - Chart.js configuration and redraws;
  - the length label of the last probe;
  - `localStorage` persistence;
  - the enabled state of the buttons and the size menu.
  `checkReady` is kept as a predicate on the start button's state.
- Timers are not modelled: `setInterval`, `clearInterval`, `delay` and the
  receive timeout. Each tick, statistics tick and loop iteration is a call.
  - Clicking start while a run is active would create a second interval. That
    is not modelled.
- `toFixed(2)` formatting is not modelled. Means and medians are exact
  reals, not IEEE doubles.
- JSON text is not modelled in either direction. Parsing is a parameter, and
  `JSON.stringify` and `dump()` are left out. All JSON numbers are
  integers.
- JsNumbers: numbers are unbounded integers. Precision loss beyond 2^53 is
  not modelled, nor is the Infinity that `parseInt` gives for very long
  numerals.
- ProbeEngine.ReadPong / ProbeEngine.Engine.OnMessage: the model ignores a
  pong whose `id` is neither a number nor a string, or whose `client_ts` is
  not a number. The client still counts such a pong: `recv` rises, and a
  sample and a chart point are appended. Their values come from
  JavaScript's coercions: NaN for an absent or non-numeric value, 0 for
  null, and the number itself for a numeric string such as "5".
  A `JSON.parse` that throws on the client is also left out.
- EchoServer: the "Backpressure Enabled" console line of the argument scan is
  not modelled.
- UdpPinger.ParseSigned: only ASCII digits are accepted. Kotlin's parser on
  the JVM also accepts other Unicode decimal digits.
- UdpPinger.Prepend / UdpPinger.Capped: Kotlin counts UTF-16 code units
  (`length`, `substring(0, 5000)`), the model counts characters. A log
  with characters outside the Basic Multilingual Plane is cut at a
  different point, and Kotlin may split a surrogate pair there.
- UdpPinger.PingScreen.RunPingJob: these are left out:
  - the Kotlin `Int` wrap-around of `seq` after 2^31 - 1 iterations, so
    the counter is unbounded;
  - the exception texts, which are parameters;
  - decoding of the received bytes, given as a string;
  - the status text.
  Cancellation is the number of iterations. After a cancellation the
  coroutine logs nothing more.
- ProbeEngine.Engine.StatsTick: the three transports are refreshed by three
  calls in the order of the source's array, not by a loop.

## Behaviour worth knowing

Verifying the model made these points about the code explicit:

- **Interval.** Only an interval that reads as NaN or 0 falls back to 100 ms.
  A negative interval is passed on unchanged (`ProbeEngine.IntervalReadsBack`).
- **Chart size.** Chart pruning looks only at the head of the series, so the
  series has no hard size bound. A point with a NaN id or an out-of-order id
  at the head keeps every point behind it (`SeriesBuffer.FreshHeadKeepsAll`).
  When ids arrive strictly increasing the bound is 111 points, not 110
  (`SeriesBuffer.OrderedSeriesBounded`).
- **Throwing sends.** A WebSocket `send` is not inside a `try`. When it
  throws, the tick ends before either data channel is tried. A throwing
  data-channel send is swallowed and does not affect the other channel.
- **Restart.** Start resets the counters and buffers but not the displayed
  mean and median. They keep the previous run's values until the next
  statistics tick that has data.
- **Missing `ts`.** When a ping has no `ts`, the server's `operator[]`
  inserts it as null. The pong then carries both `ts` and `client_ts`
  as null.
- **Framing errors.** In the pinger, a negative packet size or a port outside
  0..65535 throws before the per-iteration `try`. It ends the whole job with
  "Socket Error: ..." rather than an "Error - ..." line.
