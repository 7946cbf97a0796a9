/** The plugin's older API client, GoodFriend.Plugin/Types/APIClient.cs: two
    connection flags, a fixed one-minute reconnect timer, a rate-limit
    clock fed by the API's 429 responses, the friends SSE read loop and the
    metadata request.

    Times are whole milliseconds on one clock; the current time is passed
    in. The URL decoder and the Newtonsoft deserializer are parameters. */
module PluginApiClient {
  import opened Wrappers
  import opened Primitives

  const StatusOk: int := 200
  const StatusTooManyRequests: int := 429
  const ReconnectIntervalMs: nat := 60000
  const FallbackRateLimitMs: nat := 60000
  const PollIntervalMs: nat := 1000
  const FriendsStreamPath: string := "sse/friends"
  const SseDataFiller: string := "data: "

  /** UpdatePayload (APIClient.cs:480-488). */
  datatype UpdatePayload = UpdatePayload(
    contentId: Option<string>, loggedIn: bool, worldId: u32,
    datacenterId: u32, territoryId: u32, salt: Option<string>)

  /** MetadataPayload (APIClient.cs:493-500). */
  datatype MetadataPayload = MetadataPayload(
    connectedClients: int, maxCapacity: int, donationPageUrl: Option<string>,
    statusPageUrl: Option<string>, newApiUrl: Option<string>)

  /** JsonConvert.DeserializeObject: a value, null, or an exception. */
  datatype Deserialized<T> = Value(value: T) | NullResult | Threw

  /** The first value of a response header, as int.Parse sees it. */
  datatype HeaderValue = Seconds(n: int) | Unparsable

  datatype RootResponse = RootResponse(status: int, rateLimitReset: Option<HeaderValue>, retryAfter: Option<HeaderValue>)

  datatype ApiStep = Line(raw: string) | EndOfStream | ReadFailure | CloseCalled

  datatype StreamOutcome = StreamOpenFailed | StreamOpened(steps: seq<ApiStep>)

  /** What the network does with one OpenSSEStreamConnection. */
  datatype ApiSession = RootFailed | Root(response: RootResponse, stream: StreamOutcome)

  /** What the network does with one metadata request. */
  datatype MetadataOutcome = SendFailed | Response(status: int, body: string)

  datatype ApiError =
    | AlreadyConnected        // InvalidOperationException from OpenSSEStream
    | NotConnected            // InvalidOperationException from CloseSSEStream
    | ClientDisposed          // ObjectDisposedException from the disposed HttpClient
    | RootRequestFailed
    | HeaderParseFailed       // int.Parse on a rate-limit header threw
    | StreamOpenError
    | StreamReadError
    | PayloadParseError       // DeserializeObject threw
    | RateLimitedUntil(reset: int)
    | StatusFailure(status: int)
    | MetadataRequestFailed   // SendAsync or ReadAsStringAsync threw
    | MetadataParseError      // DeserializeObject threw

  /** The public events, as observers see them. */
  datatype ApiNotification =
    | DataReceived(payload: UpdatePayload)
    | ConnectionEstablished
    | ConnectionClosed
    | ConnectionError(error: ApiError)
    | RequestError(error: ApiError, status: Option<int>)
    | RequestSuccess(code: int)

  datatype ApiCall = GetRoot(at: int) | GetStream(path: string, at: int) | GetMetadata(at: int) | CancelPending | DisposeHttpClient

  // ---------------------------------------------------------------------
  // Rate limiting (APIClient.cs:195-215, 319-323)
  // ---------------------------------------------------------------------

  /** The reset time after a root response received at `now`: a 429 takes
      the ratelimit-reset header, else retry-after, else one minute; any
      other status keeps the previous reset. A header int.Parse rejects is
      an error. */
  function RateLimitAfter(resp: RootResponse, now: int, previous: int): (r: Result<int, ApiError>)
    ensures resp.status != StatusTooManyRequests ==> r == Ok(previous)
    ensures resp.status == StatusTooManyRequests && resp.rateLimitReset.Some? && resp.rateLimitReset.value.Seconds?
      ==> r == Ok(now + 1000 * resp.rateLimitReset.value.n)
    ensures resp.status == StatusTooManyRequests && resp.rateLimitReset.None? && resp.retryAfter.Some? && resp.retryAfter.value.Seconds?
      ==> r == Ok(now + 1000 * resp.retryAfter.value.n)
    ensures resp.status == StatusTooManyRequests && resp.rateLimitReset.None? && resp.retryAfter.None?
      ==> r == Ok(now + FallbackRateLimitMs)
    ensures r.Err? <==> (resp.status == StatusTooManyRequests
                         && (if resp.rateLimitReset.Some? then resp.rateLimitReset.value.Unparsable?
                             else resp.retryAfter.Some? && resp.retryAfter.value.Unparsable?))
  {
    if resp.status != StatusTooManyRequests then Ok(previous)
    else
      var header := if resp.rateLimitReset.Some? then resp.rateLimitReset else resp.retryAfter;
      match header
      case None => Ok(now + FallbackRateLimitMs)
      case Some(Seconds(n)) => Ok(now + 1000 * n)
      case Some(Unparsable) => Err(HeaderParseFailed)
  }

  /** The rate-limit header wins over retry-after when both are present. */
  lemma RateLimitHeaderWins(now: int, previous: int, a: int, b: int)
    ensures RateLimitAfter(RootResponse(429, Some(Seconds(a)), Some(Seconds(b))), now, previous) == Ok(now + 1000 * a)
  {
  }

  /** The time at which the wait loop, polling every second from `now`,
      first finds the reset time reached. */
  function WaitedUntil(reset: int, now: int): (r: int)
    decreases reset - now
  {
    if reset <= now then now else WaitedUntil(reset, now + PollIntervalMs)
  }

  /** The wait ends at the first poll at or past the reset, a whole number
      of seconds after `now`; it ends at once when the reset has passed. */
  lemma {:induction false} WaitedUntilBounds(reset: int, now: int)
    ensures var t := WaitedUntil(reset, now);
      t >= reset && t >= now && (t - now) % PollIntervalMs == 0
      && (reset <= now ==> t == now)
      && (reset > now ==> t < reset + PollIntervalMs)
    decreases reset - now
  {
    if reset > now {
      WaitedUntilBounds(reset, now + PollIntervalMs);
    }
  }

  // ---------------------------------------------------------------------
  // Line handling and the read loop (APIClient.cs:333-358)
  // ---------------------------------------------------------------------

  datatype ApiLineKind = SkippedLine | PayloadLine(payload: UpdatePayload) | UnparsableLine

  /** The text handed to Newtonsoft: every "data: " (with its space)
      removed from the decoded line, then the ends trimmed. */
  function ApiPayload(decoded: string): (p: string)
    ensures |p| <= |decoded|
  {
    var removed := RemoveAll(decoded, SseDataFiller);
    assert |removed| <= |decoded|;
    Trim(removed)
  }

  /** One line of the friends stream: comment lines and null payloads are
      skipped, a payload Newtonsoft parses is delivered, and one it throws
      on makes the line unparsable. */
  function ClassifyApiLine(raw: string, urlDecode: string -> string, deserialize: string -> Deserialized<UpdatePayload>): (k: ApiLineKind)
    ensures k.SkippedLine? <==> Trim(urlDecode(raw)) == ":" || deserialize(ApiPayload(urlDecode(raw))).NullResult?
    ensures k.PayloadLine? <==> Trim(urlDecode(raw)) != ":" && deserialize(ApiPayload(urlDecode(raw))).Value?
    ensures k.PayloadLine? ==> deserialize(ApiPayload(urlDecode(raw))) == Value(k.payload)
    ensures k.UnparsableLine? <==> Trim(urlDecode(raw)) != ":" && deserialize(ApiPayload(urlDecode(raw))).Threw?
  {
    var message := urlDecode(raw);
    if Trim(message) == ":" then SkippedLine
    else
      match deserialize(ApiPayload(message))
      case Value(p) => PayloadLine(p)
      case NullResult => SkippedLine
      case Threw => UnparsableLine
  }

  /** A "data: " line whose JSON holds no further "data: " delivers the
      deserialised JSON. */
  lemma ApiDataLineDelivers(raw: string, json: string, p: UpdatePayload, urlDecode: string -> string, deserialize: string -> Deserialized<UpdatePayload>)
    requires urlDecode(raw) == SseDataFiller + json
    requires !Contains(json, SseDataFiller)
    requires deserialize(Trim(json)) == Value(p)
    ensures ClassifyApiLine(raw, urlDecode, deserialize) == PayloadLine(p)
  {
    var m := SseDataFiller + json;
    RemoveAllLeadingOccurrence(SseDataFiller, json);
    assert ApiPayload(m) == Trim(json);
    assert m[0] == 'd';
    TrimKeepsFirst(m);
    assert Trim(m) != ":";
  }

  /** Without the space, "data:" is not filler here: the whole line reaches
      Newtonsoft, and when it throws the line ends the connection. */
  lemma UnspacedDataPrefixReachesParser(raw: string, urlDecode: string -> string, deserialize: string -> Deserialized<UpdatePayload>)
    requires urlDecode(raw) == "data:{}"
    requires deserialize("data:{}").Threw?
    ensures ClassifyApiLine(raw, urlDecode, deserialize) == UnparsableLine
  {
    var m := "data:{}";
    assert m[..6][5] != SseDataFiller[5];
    assert m[1..][..6][0] != SseDataFiller[0];
    assert RemoveAll(m[2..], SseDataFiller) == m[2..];
    assert RemoveAll(m, SseDataFiller) == m;
    assert m[0] == 'd' && m[|m| - 1] == '}';
    assert TrimStart(m) == m && TrimEnd(m) == m;
    assert ApiPayload(m) == m;
    assert Trim(m) != ":";
  }

  function ApiClassifier(urlDecode: string -> string, deserialize: string -> Deserialized<UpdatePayload>): (c: string -> ApiLineKind)
    ensures forall raw :: c(raw) == ClassifyApiLine(raw, urlDecode, deserialize)
  {
    raw => ClassifyApiLine(raw, urlDecode, deserialize)
  }

  /** How the loop ended: still reading, at end of stream, with an
      exception, or because the owner closed the stream. */
  datatype ApiExit = Reading | EndReached | Failed(error: ApiError) | Closed

  datatype ApiRun = ApiRun(emitted: seq<ApiNotification>, exit: ApiExit)

  function ApiLoop(steps: seq<ApiStep>, classify: string -> ApiLineKind): (run: ApiRun)
    ensures |run.emitted| <= |steps|
    ensures forall k :: 0 <= k < |run.emitted| ==> run.emitted[k].DataReceived?
    decreases |steps|
  {
    if steps == [] then ApiRun([], Reading)
    else
      match steps[0]
      case EndOfStream => ApiRun([], EndReached)
      case ReadFailure => ApiRun([], Failed(StreamReadError))
      case CloseCalled => ApiRun([], Closed)
      case Line(raw) =>
        match classify(raw)
        case UnparsableLine => ApiRun([], Failed(PayloadParseError))
        case SkippedLine => ApiLoop(steps[1..], classify)
        case PayloadLine(p) =>
          var rest := ApiLoop(steps[1..], classify);
          ApiRun([DataReceived(p)] + rest.emitted, rest.exit)
  }

  lemma ApiLoopAt(steps: seq<ApiStep>, i: nat, classify: string -> ApiLineKind)
    requires i < |steps|
    ensures var rest := ApiLoop(steps[i + 1..], classify);
      ApiLoop(steps[i..], classify) ==
      match steps[i]
      case EndOfStream => ApiRun([], EndReached)
      case ReadFailure => ApiRun([], Failed(StreamReadError))
      case CloseCalled => ApiRun([], Closed)
      case Line(raw) =>
        match classify(raw)
        case UnparsableLine => ApiRun([], Failed(PayloadParseError))
        case SkippedLine => rest
        case PayloadLine(p) => ApiRun([DataReceived(p)] + rest.emitted, rest.exit)
  {
    assert steps[i..][0] == steps[i] && steps[i..][1..] == steps[i + 1..];
  }

  /** The payloads of the payload lines among `steps`, in order: the data
      events the loop should raise. */
  function Deliveries(steps: seq<ApiStep>, classify: string -> ApiLineKind): (r: seq<ApiNotification>) {
    if steps == [] then []
    else
      var rest := Deliveries(steps[1..], classify);
      if steps[0].Line? && classify(steps[0].raw).PayloadLine? then [DataReceived(classify(steps[0].raw).payload)] + rest else rest
  }

  /** While the loop keeps reading, it raises exactly one data event per
      payload line, in order, and nothing for skipped lines. */
  lemma {:induction false} ApiLoopDeliversInOrder(steps: seq<ApiStep>, classify: string -> ApiLineKind)
    requires ApiLoop(steps, classify).exit == Reading
    ensures ApiLoop(steps, classify).emitted == Deliveries(steps, classify)
    ensures forall k :: 0 <= k < |steps| ==> steps[k].Line? && !classify(steps[k].raw).UnparsableLine?
  {
    if steps != [] {
      ApiLoopDeliversInOrder(steps[1..], classify);
      assert forall k :: 1 <= k < |steps| ==> steps[k] == steps[1..][k - 1];
    }
  }

  /** A payload that Newtonsoft cannot parse ends the connection. */
  lemma UnparsableLineEndsLoop(raw: string, rest: seq<ApiStep>, classify: string -> ApiLineKind)
    requires classify(raw).UnparsableLine?
    ensures ApiLoop([Line(raw)] + rest, classify) == ApiRun([], Failed(PayloadParseError))
  {
    assert ([Line(raw)] + rest)[0] == Line(raw);
  }

  /** Every data event raised carries the payload of a line read. */
  lemma {:induction false} ApiLoopEmitsFromLines(steps: seq<ApiStep>, classify: string -> ApiLineKind, k: nat)
    requires k < |ApiLoop(steps, classify).emitted|
    ensures exists j :: 0 <= j < |steps| && steps[j].Line?
                        && classify(steps[j].raw) == PayloadLine(ApiLoop(steps, classify).emitted[k].payload)
  {
    var run := ApiLoop(steps, classify);
    var rest := ApiLoop(steps[1..], classify);
    var kind := classify(steps[0].raw);
    if kind.PayloadLine? && k == 0 {
    } else {
      var k' := if kind.SkippedLine? then k else k - 1;
      assert run.emitted[k] == rest.emitted[k'];
      ApiLoopEmitsFromLines(steps[1..], classify, k');
      var j :| 0 <= j < |steps[1..]| && steps[1..][j].Line?
               && classify(steps[1..][j].raw) == PayloadLine(rest.emitted[k'].payload);
      assert steps[j + 1] == steps[1..][j];
    }
  }

  /** With the client's classifier, every data event carries what Newtonsoft
      made of the stripped, trimmed text of a line that was not a comment. */
  lemma ApiMessagesAreDeserializedPayloads(steps: seq<ApiStep>, urlDecode: string -> string, deserialize: string -> Deserialized<UpdatePayload>, k: nat)
    requires k < |ApiLoop(steps, ApiClassifier(urlDecode, deserialize)).emitted|
    ensures exists j :: (0 <= j < |steps| && steps[j].Line? && Trim(urlDecode(steps[j].raw)) != ":"
                         && deserialize(ApiPayload(urlDecode(steps[j].raw)))
                            == Value(ApiLoop(steps, ApiClassifier(urlDecode, deserialize)).emitted[k].payload))
  {
    ApiLoopEmitsFromLines(steps, ApiClassifier(urlDecode, deserialize), k);
  }

  // ---------------------------------------------------------------------
  // The client's observable state and what each operation does to it
  // ---------------------------------------------------------------------

  datatype ApiView = ApiView(
    connected: bool,
    connecting: bool,
    lastStatusCode: int,
    rateLimitReset: int,
    timerRunning: bool,
    notifications: seq<ApiNotification>,
    transport: seq<ApiCall>)

  /** Raising an event; while wired, the OnSSE* handlers run
      (APIClient.cs:91-121, 235-237). */
  function ApiNotified(v: ApiView, n: ApiNotification, wired: bool): (w: ApiView) {
    var v' := v.(notifications := v.notifications + [n]);
    if !wired then v'
    else
      match n
      case ConnectionEstablished =>
        v'.(connected := true, connecting := false, lastStatusCode := StatusOk,
            transport := v'.transport + [CancelPending], timerRunning := false)
      case ConnectionClosed =>
        v'.(connected := false, connecting := false, transport := v'.transport + [CancelPending], timerRunning := false)
      case ConnectionError(_) =>
        v'.(connected := false, connecting := false, transport := v'.transport + [CancelPending], timerRunning := true)
      case _ => v'
  }

  /** The catch block of OpenSSEStreamConnection (APIClient.cs:360-368). */
  function Catch(v: ApiView, e: ApiError, wired: bool): (w: ApiView) {
    var c := if v.connected then ApiNotified(v, ConnectionClosed, wired) else v;
    ApiNotified(c, ConnectionError(e), wired)
  }

  /** The read loop and what follows it, from the established event on. */
  function AfterStream(v: ApiView, steps: seq<ApiStep>, classify: string -> ApiLineKind): (w: ApiView) {
    var run := ApiLoop(steps, classify);
    var d := v.(notifications := v.notifications + run.emitted);
    match run.exit
    case Reading => d
    case EndReached => if d.connected then ApiNotified(d, ConnectionClosed, true) else d
    case Failed(e) => Catch(d, e, true)
    case Closed => ApiNotified(d, ConnectionClosed, true)
  }

  /** OpenSSEStreamConnection started at `now` (APIClient.cs:302-369). A
      disposed HttpClient throws before it sends anything. */
  function AfterOpenConnection(v: ApiView, wired: bool, disposed: bool, now: int, session: ApiSession, classify: string -> ApiLineKind): (w: ApiView) {
    if v.connecting then v
    else
      var c := v.(connecting := true);
      if disposed then Catch(c, ClientDisposed, wired)
      else
        var c' := c.(transport := c.transport + [GetRoot(now)]);
        match session
        case RootFailed => Catch(c', RootRequestFailed, wired)
        case Root(resp, stream) =>
          var h := c'.(lastStatusCode := resp.status);
          match RateLimitAfter(resp, now, v.rateLimitReset)
          case Err(e) => Catch(h, e, wired)
          case Ok(reset) =>
            var s := h.(rateLimitReset := reset, transport := h.transport + [GetStream(FriendsStreamPath, WaitedUntil(reset, now))]);
            match stream
            case StreamOpenFailed => Catch(s, StreamOpenError, wired)
            case StreamOpened(steps) => AfterStream(ApiNotified(s, ConnectionEstablished, wired), steps, classify)
  }

  /** GetMetadata at `now`: the result and the new state (APIClient.cs:374-407).
      On a disposed HttpClient, SendAsync throws ObjectDisposedException
      before any request goes out, and the catch reports it. */
  function MetadataResult(v: ApiView, disposed: bool, now: int, outcome: MetadataOutcome, parse: string -> Deserialized<MetadataPayload>): (res: (Option<MetadataPayload>, ApiView)) {
    if v.rateLimitReset > now then
      (None, v.(notifications := v.notifications + [RequestError(RateLimitedUntil(v.rateLimitReset), Some(StatusTooManyRequests))]))
    else if disposed then
      (None, v.(notifications := v.notifications + [RequestError(ClientDisposed, None)]))
    else
      var sent := v.(transport := v.transport + [GetMetadata(now)]);
      match outcome
      case SendFailed => (None, sent.(notifications := sent.notifications + [RequestError(MetadataRequestFailed, None)]))
      case Response(status, body) =>
        if !(200 <= status <= 299) then
          (None, sent.(notifications := sent.notifications + [RequestError(StatusFailure(status), Some(status))]))
        else
          match parse(body)
          case Threw => (None, sent.(notifications := sent.notifications + [RequestError(MetadataParseError, None)]))
          case NullResult => (None, sent.(notifications := sent.notifications + [RequestSuccess(status)]))
          case Value(m) => (Some(m), sent.(notifications := sent.notifications + [RequestSuccess(status)]))
  }

  /** A connection attempt never leaves both flags set; a reconnect is
      scheduled exactly when the attempt ended in an exception, and then
      the client is neither connected nor connecting. */
  lemma ConnectionOutcome(v: ApiView, now: int, session: ApiSession, classify: string -> ApiLineKind)
    requires !v.connecting && !v.connected
    ensures var w := AfterOpenConnection(v, true, false, now, session, classify);
      !(w.connected && w.connecting) && !w.connecting
      && (w.timerRunning <==> |w.notifications| > 0 && w.notifications[|w.notifications| - 1].ConnectionError?)
      && (w.timerRunning ==> !w.connected)
  {
    var c' := v.(connecting := true, transport := v.transport + [GetRoot(now)]);
    match session
    case RootFailed =>
    case Root(resp, stream) =>
      match RateLimitAfter(resp, now, v.rateLimitReset)
      case Err(e) =>
      case Ok(reset) =>
        match stream
        case StreamOpenFailed =>
        case StreamOpened(steps) =>
          var run := ApiLoop(steps, classify);
          if run.emitted != [] {
            assert run.emitted[|run.emitted| - 1].DataReceived?;
          }
  }

  /** After Dispose the handlers are unwired, so the attempt that hits the
      disposed HttpClient reports the error but nothing clears connecting:
      no request goes out, and every later attempt returns at once. */
  lemma DisposedAttemptStaysConnecting(v: ApiView, now: int, later: int, session: ApiSession, next: ApiSession, classify: string -> ApiLineKind)
    requires !v.connecting
    ensures var w := AfterOpenConnection(v, false, true, now, session, classify);
      w.connecting && w.connected == v.connected && w.timerRunning == v.timerRunning
      && w.transport == v.transport
      && w.notifications == v.notifications + (if v.connected then [ConnectionClosed] else []) + [ConnectionError(ClientDisposed)]
      && AfterOpenConnection(w, false, true, later, next, classify) == w
  {
  }

  /** The stream request is issued only once the rate limit has passed: at
      the first poll at or after the (possibly new) reset time. */
  lemma StreamRequestWaitsForRateLimit(v: ApiView, now: int, session: ApiSession, classify: string -> ApiLineKind)
    requires !v.connecting && session.Root? && RateLimitAfter(session.response, now, v.rateLimitReset).Ok?
    ensures var reset := RateLimitAfter(session.response, now, v.rateLimitReset).value;
      var t := WaitedUntil(reset, now);
      var w := AfterOpenConnection(v, true, false, now, session, classify);
      w.transport[|v.transport| + 1] == GetStream(FriendsStreamPath, t) && t >= reset && t >= now
      && w.transport[..|v.transport|] == v.transport && w.transport[|v.transport|] == GetRoot(now)
  {
    var reset := RateLimitAfter(session.response, now, v.rateLimitReset).value;
    WaitedUntilBounds(reset, now);
    var s := v.(connecting := true, lastStatusCode := session.response.status, rateLimitReset := reset,
                transport := v.transport + [GetRoot(now)] + [GetStream(FriendsStreamPath, WaitedUntil(reset, now))]);
    ApiTransportGrows(s, session.stream, classify);
    var w := AfterOpenConnection(v, true, false, now, session, classify);
    assert w.transport[..|s.transport|] == s.transport;
    assert w.transport[..|v.transport|] == s.transport[..|v.transport|] == v.transport;
  }

  /** The rest of an attempt only appends transport calls. */
  lemma ApiTransportGrows(s: ApiView, stream: StreamOutcome, classify: string -> ApiLineKind)
    ensures var w := match stream
      case StreamOpenFailed => Catch(s, StreamOpenError, true)
      case StreamOpened(steps) => AfterStream(ApiNotified(s, ConnectionEstablished, true), steps, classify);
      |s.transport| <= |w.transport| && w.transport[..|s.transport|] == s.transport
  {
  }

  /** A clean end of stream while connected closes the connection without
      scheduling a reconnect. */
  lemma CleanEndDoesNotReconnect(v: ApiView, now: int, resp: RootResponse, lines: seq<ApiStep>, classify: string -> ApiLineKind)
    requires !v.connecting && RateLimitAfter(resp, now, v.rateLimitReset).Ok?
    requires ApiLoop(lines, classify).exit == Reading
    ensures var w := AfterOpenConnection(v, true, false, now, Root(resp, StreamOpened(lines + [EndOfStream])), classify);
      !w.connected && !w.connecting && !w.timerRunning && w.lastStatusCode == StatusOk
      && w.notifications[|w.notifications| - 1] == ConnectionClosed
      && (forall k :: |v.notifications| <= k < |w.notifications| ==> !w.notifications[k].ConnectionError?)
  {
    ghost var tail := ApiLoop([EndOfStream], classify);
    assert tail == ApiRun([], EndReached);
    ApiLoopAppendReading(lines, [EndOfStream], classify);
    var run := ApiLoop(lines + [EndOfStream], classify);
    assert run.exit == EndReached;
    assert forall k :: 0 <= k < |run.emitted| ==> run.emitted[k].DataReceived?;
  }

  lemma {:induction false} ApiLoopAppendReading(a: seq<ApiStep>, b: seq<ApiStep>, classify: string -> ApiLineKind)
    requires ApiLoop(a, classify).exit == Reading
    ensures ApiLoop(a + b, classify) == ApiRun(ApiLoop(a, classify).emitted + ApiLoop(b, classify).emitted, ApiLoop(b, classify).exit)
  {
    if a == [] {
      assert a + b == b;
    } else {
      assert (a + b)[0] == a[0];
      assert (a + b)[1..] == a[1..] + b;
      ApiLoopAppendReading(a[1..], b, classify);
    }
  }

  /** While rate limited GetMetadata sends nothing and reports a 429; on a
      disposed HttpClient it sends nothing and reports the exception; a
      value is returned only for a success status and a parsed body. */
  lemma MetadataGuards(v: ApiView, disposed: bool, now: int, outcome: MetadataOutcome, parse: string -> Deserialized<MetadataPayload>)
    ensures var (r, w) := MetadataResult(v, disposed, now, outcome, parse);
      (v.rateLimitReset > now ==> r.None? && w.transport == v.transport
                                  && w.notifications == v.notifications + [RequestError(RateLimitedUntil(v.rateLimitReset), Some(StatusTooManyRequests))])
      && (v.rateLimitReset <= now && disposed ==> r.None? && w.transport == v.transport
                                                  && w.notifications == v.notifications + [RequestError(ClientDisposed, None)])
      && (r.Some? <==> v.rateLimitReset <= now && !disposed && outcome.Response? && 200 <= outcome.status <= 299 && parse(outcome.body).Value?)
      && (r.Some? ==> r.value == parse(outcome.body).value && w.notifications[|w.notifications| - 1] == RequestSuccess(outcome.status))
      && w.connected == v.connected && w.connecting == v.connecting && w.lastStatusCode == v.lastStatusCode
      && w.rateLimitReset == v.rateLimitReset && w.timerRunning == v.timerRunning
  {
  }

  // ---------------------------------------------------------------------
  // The client object
  // ---------------------------------------------------------------------

  class ApiClient {
    const classify: string -> ApiLineKind
    const parseMetadata: string -> Deserialized<MetadataPayload>

    var SSEIsConnected: bool
    var SSEIsConnecting: bool
    var LastStatusCode: int
    var RateLimitReset: int
    var timerRunning: bool
    /** Whether the OnSSE* handlers and OnTryReconnect are registered. */
    var handlersWired: bool
    var httpClientDisposed: bool
    var notifications: seq<ApiNotification>
    var transport: seq<ApiCall>

    ghost function View(): (w: ApiView)
      reads this
    {
      ApiView(SSEIsConnected, SSEIsConnecting, LastStatusCode, RateLimitReset, timerRunning, notifications, transport)
    }

    /** The handlers are registered until Dispose disposes the HttpClient. */
    ghost predicate Valid()
      reads this
    {
      handlersWired == !httpClientDisposed
      && (httpClientDisposed ==> !timerRunning && !SSEIsConnected)
    }

    /** APIClient(config) at time `now` (APIClient.cs:177, 189, 231-242). */
    constructor (now: int, urlDecode: string -> string, deserialize: string -> Deserialized<UpdatePayload>,
                 parseMetadata: string -> Deserialized<MetadataPayload>)
      ensures Valid() && handlersWired
      ensures classify == ApiClassifier(urlDecode, deserialize) && this.parseMetadata == parseMetadata
      ensures View() == ApiView(false, false, 0, now, false, [], [])
    {
      classify := ApiClassifier(urlDecode, deserialize);
      this.parseMetadata := parseMetadata;
      SSEIsConnected := false;
      SSEIsConnecting := false;
      LastStatusCode := 0;
      RateLimitReset := now;
      timerRunning := false;
      handlersWired := true;
      httpClientDisposed := false;
      notifications := [];
      transport := [];
    }

    method Notify(n: ApiNotification)
      modifies this
      ensures View() == ApiNotified(old(View()), n, handlersWired)
      ensures n.DataReceived? ==> unchanged(this`SSEIsConnected, this`SSEIsConnecting, this`timerRunning, this`transport)
      ensures handlersWired == old(handlersWired) && httpClientDisposed == old(httpClientDisposed)
      ensures RateLimitReset == old(RateLimitReset)
    {
      notifications := notifications + [n];
      if handlersWired {
        match n
        case ConnectionEstablished =>
          SSEIsConnected := true;
          SSEIsConnecting := false;
          LastStatusCode := StatusOk;
          transport := transport + [CancelPending];
          timerRunning := false;
        case ConnectionClosed =>
          SSEIsConnected := false;
          SSEIsConnecting := false;
          transport := transport + [CancelPending];
          timerRunning := false;
        case ConnectionError(_) =>
          SSEIsConnected := false;
          SSEIsConnecting := false;
          transport := transport + [CancelPending];
          timerRunning := true;
        case _ =>
      }
    }

    /** HandleRatelimitAndStatuscode (APIClient.cs:195-215): false when a
        rate-limit header does not parse. */
    method HandleRatelimitAndStatuscode(resp: RootResponse, now: int) returns (ok: bool)
      modifies this`LastStatusCode, this`RateLimitReset
      ensures LastStatusCode == resp.status
      ensures ok <==> RateLimitAfter(resp, now, old(RateLimitReset)).Ok?
      ensures RateLimitReset == RateLimitAfter(resp, now, old(RateLimitReset)).GetOr(old(RateLimitReset))
    {
      LastStatusCode := resp.status;
      ok := true;
      if resp.status == StatusTooManyRequests {
        match resp.rateLimitReset {
          case Some(h) =>
            match h {
              case Seconds(n) => RateLimitReset := now + 1000 * n;
              case Unparsable => ok := false;
            }
          case None =>
            match resp.retryAfter {
              case Some(Seconds(n)) => RateLimitReset := now + 1000 * n;
              case Some(Unparsable) => ok := false;
              case None => RateLimitReset := now + FallbackRateLimitMs;
            }
        }
      }
    }

    /** The wait of APIClient.cs:319-323: poll once a second until the reset
        time has passed; returns the time at which it stops. */
    method WaitForRateLimit(now: int) returns (t: int)
      ensures t == WaitedUntil(RateLimitReset, now)
      ensures t >= RateLimitReset && t >= now && (t - now) % PollIntervalMs == 0
      ensures RateLimitReset <= now ==> t == now
      ensures RateLimitReset > now ==> t < RateLimitReset + PollIntervalMs
    {
      WaitedUntilBounds(RateLimitReset, now);
      t := now;
      while RateLimitReset > t
        invariant now <= t && (t - now) % PollIntervalMs == 0
        invariant WaitedUntil(RateLimitReset, t) == WaitedUntil(RateLimitReset, now)
        decreases RateLimitReset - t
      {
        t := t + PollIntervalMs;
      }
    }

    /** CancelPendingRequests (APIClient.cs:220); the disposed HttpClient
        throws before anything changes. */
    method CancelPendingRequests() returns (r: Result<(), ApiError>)
      modifies this
      ensures old(httpClientDisposed) ==> r == Err(ClientDisposed) && unchanged(this)
      ensures !old(httpClientDisposed) ==> r == Ok(()) && View() == old(View()).(transport := old(transport) + [CancelPending], timerRunning := false, connecting := false)
      ensures handlersWired == old(handlersWired) && httpClientDisposed == old(httpClientDisposed)
    {
      if httpClientDisposed {
        return Err(ClientDisposed);
      }
      transport := transport + [CancelPending];
      timerRunning := false;
      SSEIsConnecting := false;
      r := Ok(());
    }

    /** CloseSSEStream (APIClient.cs:289-297). */
    method CloseSSEStream() returns (r: Result<(), ApiError>)
      modifies this
      ensures !old(SSEIsConnected) ==> r == Err(NotConnected) && unchanged(this)
      ensures old(SSEIsConnected) ==> r == Ok(()) && View() == ApiNotified(old(View()), ConnectionClosed, handlersWired)
      ensures handlersWired == old(handlersWired) && httpClientDisposed == old(httpClientDisposed)
      ensures old(Valid()) ==> Valid()
    {
      if !SSEIsConnected {
        return Err(NotConnected);
      }
      Notify(ConnectionClosed);
      r := Ok(());
    }

    /** The catch block of OpenSSEStreamConnection. */
    method HandleConnectionFailure(e: ApiError)
      modifies this
      ensures View() == Catch(old(View()), e, handlersWired)
      ensures handlersWired == old(handlersWired) && httpClientDisposed == old(httpClientDisposed)
      ensures old(Valid()) && handlersWired ==> Valid()
    {
      if SSEIsConnected {
        var _ := CloseSSEStream();
      }
      Notify(ConnectionError(e));
    }

    /** The established event, the read loop and what follows it
        (APIClient.cs:330-368), on an opened stream. */
    method ConsumeStream(steps: seq<ApiStep>)
      requires handlersWired && Valid()
      modifies this
      ensures View() == AfterStream(ApiNotified(old(View()), ConnectionEstablished, true), steps, classify)
      ensures handlersWired && httpClientDisposed == old(httpClientDisposed)
      ensures Valid()
    {
      Notify(ConnectionEstablished);
      var exit := RunApiLoop(steps);
      match exit {
        case Reading =>
        case EndReached =>
          if SSEIsConnected {
            var _ := CloseSSEStream();
          }
        case Failed(e) =>
          HandleConnectionFailure(e);
        case Closed =>
      }
    }

    /** OpenSSEStreamConnection at time `now` (APIClient.cs:302-369). */
    method OpenSSEStreamConnection(now: int, session: ApiSession)
      requires Valid()
      modifies this
      ensures View() == AfterOpenConnection(old(View()), handlersWired, httpClientDisposed, now, session, classify)
      ensures handlersWired == old(handlersWired) && httpClientDisposed == old(httpClientDisposed)
      ensures Valid()
    {
      if SSEIsConnecting {
        return;
      }
      SSEIsConnecting := true;
      if httpClientDisposed {
        HandleConnectionFailure(ClientDisposed);
        return;
      }
      transport := transport + [GetRoot(now)];
      match session {
        case RootFailed =>
          HandleConnectionFailure(RootRequestFailed);
        case Root(resp, stream) =>
          var ok := HandleRatelimitAndStatuscode(resp, now);
          if !ok {
            HandleConnectionFailure(HeaderParseFailed);
            return;
          }
          var t := WaitForRateLimit(now);
          transport := transport + [GetStream(FriendsStreamPath, t)];
          match stream {
            case StreamOpenFailed =>
              HandleConnectionFailure(StreamOpenError);
            case StreamOpened(steps) =>
              ConsumeStream(steps);
          }
      }
    }

    /** One pass of the read loop's body (APIClient.cs:335-352): `raised`
        are the events it adds, and the loop goes on reading exactly when
        `exit` is Reading. */
    method ReadOne(steps: seq<ApiStep>, i: nat) returns (exit: ApiExit, ghost raised: seq<ApiNotification>)
      requires i < |steps|
      modifies this
      ensures SSEIsConnected == old(SSEIsConnected) && SSEIsConnecting == old(SSEIsConnecting) && timerRunning == old(timerRunning)
      ensures LastStatusCode == old(LastStatusCode) && RateLimitReset == old(RateLimitReset)
      ensures notifications == old(notifications) + raised && transport == old(transport)
      ensures handlersWired == old(handlersWired) && httpClientDisposed == old(httpClientDisposed)
      ensures exit.Reading? ==>
        ApiLoop(steps[i..], classify)
        == ApiRun(raised + ApiLoop(steps[i + 1..], classify).emitted, ApiLoop(steps[i + 1..], classify).exit)
      ensures !exit.Reading? ==> ApiLoop(steps[i..], classify) == ApiRun(raised, exit)
    {
      ApiLoopAt(steps, i, classify);
      raised := [];
      match steps[i] {
        case EndOfStream =>
          exit := EndReached;
        case ReadFailure =>
          exit := Failed(StreamReadError);
        case CloseCalled =>
          exit := Closed;
        case Line(raw) =>
          exit := Reading;
          match classify(raw) {
            case UnparsableLine =>
              exit := Failed(PayloadParseError);
            case SkippedLine =>
            case PayloadLine(p) =>
              Notify(DataReceived(p));
              raised := [DataReceived(p)];
          }
      }
    }

    /** The while loop of APIClient.cs:333-353, entered just after the
        established event. A close by the owner ends the loop. */
    method RunApiLoop(steps: seq<ApiStep>) returns (exit: ApiExit)
      requires SSEIsConnected && handlersWired && Valid()
      modifies this
      ensures handlersWired && httpClientDisposed == old(httpClientDisposed)
      ensures var run := ApiLoop(steps, classify);
        var d := old(View()).(notifications := old(notifications) + run.emitted);
        exit == run.exit
        && (if exit.Closed? then View() == ApiNotified(d, ConnectionClosed, true) else View() == d)
    {
      ghost var v0 := View();
      ghost var emitted: seq<ApiNotification> := [];
      exit := Reading;
      var i := 0;
      while exit.Reading? && i < |steps|
        invariant 0 <= i <= |steps|
        invariant handlersWired && httpClientDisposed == old(httpClientDisposed)
        invariant SSEIsConnected == v0.connected && SSEIsConnecting == v0.connecting && timerRunning == v0.timerRunning
        invariant LastStatusCode == v0.lastStatusCode && RateLimitReset == v0.rateLimitReset
        invariant notifications == v0.notifications + emitted && transport == v0.transport
        invariant exit.Reading? ==>
          ApiLoop(steps, classify) == ApiRun(emitted + ApiLoop(steps[i..], classify).emitted, ApiLoop(steps[i..], classify).exit)
        invariant !exit.Reading? ==> ApiLoop(steps, classify) == ApiRun(emitted, exit)
        decreases |steps| - i
      {
        ghost var here := ApiLoop(steps[i..], classify);
        ghost var rest := ApiLoop(steps[i + 1..], classify);
        ghost var raised;
        exit, raised := ReadOne(steps, i);
        if exit.Reading? {
          assert here == ApiRun(raised + rest.emitted, rest.exit);
          assert ApiLoop(steps, classify) == ApiRun(emitted + here.emitted, here.exit);
          ConcatAssociative(emitted, raised, rest.emitted);
        } else {
          assert here == ApiRun(raised, exit);
        }
        ConcatAssociative(v0.notifications, emitted, raised);
        emitted := emitted + raised;
        i := i + 1;
      }
      if exit.Reading? {
        assert steps[i..] == [];
      }
      // The owner's CloseSSEStream ends the loop: nothing runs between the two.
      if exit.Closed? {
        var _ := CloseSSEStream();
      }
    }

    /** OpenSSEStream (APIClient.cs:275-283). */
    method OpenSSEStream(now: int, session: ApiSession) returns (r: Result<(), ApiError>)
      requires Valid()
      modifies this
      ensures old(SSEIsConnected) ==> r == Err(AlreadyConnected) && unchanged(this)
      ensures !old(SSEIsConnected) ==> r == Ok(()) && View() == AfterOpenConnection(old(View()), handlersWired, httpClientDisposed, now, session, classify)
      ensures handlersWired == old(handlersWired) && httpClientDisposed == old(httpClientDisposed) && Valid()
    {
      if SSEIsConnected {
        return Err(AlreadyConnected);
      }
      OpenSSEStreamConnection(now, session);
      r := Ok(());
    }

    /** The reconnect timer's Elapsed event while OnTryReconnect is
        registered (APIClient.cs:184); System.Timers drops the exception
        OpenSSEStream throws when already connected. */
    method TimerElapsed(now: int, session: ApiSession)
      requires Valid()
      modifies this
      ensures !handlersWired || old(SSEIsConnected) ==> unchanged(this)
      ensures handlersWired && !old(SSEIsConnected) ==> View() == AfterOpenConnection(old(View()), true, false, now, session, classify)
      ensures handlersWired == old(handlersWired) && Valid()
    {
      if handlersWired {
        var _ := OpenSSEStream(now, session);
      }
    }

    /** GetMetadata at time `now` (APIClient.cs:374-407); it does not record
        the status code nor look at rate-limit headers. */
    method GetMetadataAt(now: int, outcome: MetadataOutcome) returns (r: Option<MetadataPayload>)
      modifies this`notifications, this`transport
      ensures (r, View()) == MetadataResult(old(View()), httpClientDisposed, now, outcome, parseMetadata)
    {
      if RateLimitReset > now {
        notifications := notifications + [RequestError(RateLimitedUntil(RateLimitReset), Some(StatusTooManyRequests))];
        return None;
      }
      if httpClientDisposed {
        notifications := notifications + [RequestError(ClientDisposed, None)];
        return None;
      }
      transport := transport + [GetMetadata(now)];
      match outcome {
        case SendFailed =>
          notifications := notifications + [RequestError(MetadataRequestFailed, None)];
          r := None;
        case Response(status, body) =>
          if !(200 <= status <= 299) {
            notifications := notifications + [RequestError(StatusFailure(status), Some(status))];
            return None;
          }
          match parseMetadata(body) {
            case Threw =>
              notifications := notifications + [RequestError(MetadataParseError, None)];
              r := None;
            case NullResult =>
              notifications := notifications + [RequestSuccess(status)];
              r := None;
            case Value(m) =>
              notifications := notifications + [RequestSuccess(status)];
              r := Some(m);
          }
      }
    }

    /** Dispose (APIClient.cs:247-269). There is no disposed flag: a second
        call reaches CancelPendingRequests on the disposed HttpClient and
        throws. */
    method Dispose() returns (r: Result<(), ApiError>)
      requires Valid()
      modifies this
      ensures old(httpClientDisposed) ==> r == Err(ClientDisposed) && unchanged(this)
      ensures !old(httpClientDisposed) ==> r == Ok(()) && httpClientDisposed && !handlersWired
      ensures !old(httpClientDisposed) ==>
        var c := if old(SSEIsConnected) then ApiNotified(old(View()), ConnectionClosed, true) else old(View());
        View() == c.(transport := c.transport + [CancelPending, DisposeHttpClient], timerRunning := false)
      ensures Valid()
    {
      if httpClientDisposed {
        return Err(ClientDisposed);
      }
      if SSEIsConnected {
        var _ := CloseSSEStream();
      }
      handlersWired := false;
      transport := transport + [CancelPending, DisposeHttpClient];
      timerRunning := false;
      httpClientDisposed := true;
      r := Ok(());
    }
  }
}
