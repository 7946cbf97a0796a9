/** The server-sent-events client of src/Client/Http/SseClient.cs. It shares
    the connection states, notifications and transport calls of the binary
    stream client; it reads text lines, has no backoff of its own, and is
    given its reconnect timer by its owner (or none).

    The URL decoder and the JSON deserializer are parameters. */
module HttpSseClient {
  import opened Wrappers
  import opened Primitives
  import opened HttpStreamClient

  /** One outcome of the reader: a line, end of stream, a read that throws,
      or the owner calling Disconnect while the loop waits for data. */
  datatype SseStep = Line(raw: string) | StreamEnded | ReadFailure | DisconnectRequested

  datatype SseSession = NoStream | LineStream(steps: seq<SseStep>)

  /** JsonSerializer.Deserialize<T>: a value, a JsonException, or any other
      exception. */
  datatype JsonOutcome<T> = Parsed(value: T) | JsonError | OtherError

  const DataPrefix: string := "data:"
  const CommentLine: string := ":"

  // ---------------------------------------------------------------------
  // Line classification (SseClient.cs:210-238)
  // ---------------------------------------------------------------------

  datatype LineKind<T> = HeartbeatLine | BlankLine | MalformedLine | MessageLine(value: T) | FatalLine

  /** The payload left once every "data:" is removed and the ends trimmed. */
  function Payload(decoded: string): (p: string)
    ensures |p| <= |decoded|
  {
    var removed := RemoveAll(decoded, DataPrefix);
    assert |removed| <= |decoded|;
    Trim(removed)
  }

  /** The payload is already trimmed: trimming it again changes nothing. */
  lemma PayloadIsTrimmed(decoded: string)
    ensures Trim(Payload(decoded)) == Payload(decoded)
  {
    TrimIdempotent(RemoveAll(decoded, DataPrefix));
  }

  /** How the loop treats one line. */
  function ClassifyLine<T>(raw: string, urlDecode: string -> string, deserialize: string -> JsonOutcome<T>): (k: LineKind<T>)
    ensures k.HeartbeatLine? <==> Trim(urlDecode(raw)) == CommentLine
    ensures k.BlankLine? <==> Trim(urlDecode(raw)) != CommentLine && Payload(urlDecode(raw)) == []
    ensures k.MessageLine? ==> Payload(urlDecode(raw)) != [] && deserialize(Payload(urlDecode(raw))) == Parsed(k.value)
    ensures k.MalformedLine? ==> deserialize(Payload(urlDecode(raw))).JsonError?
    ensures k.FatalLine? ==> deserialize(Payload(urlDecode(raw))).OtherError?
  {
    var message := urlDecode(raw);
    if Trim(message) == CommentLine then HeartbeatLine
    else
      var payload := Payload(message);
      if payload == [] then BlankLine
      else
        match deserialize(payload)
        case Parsed(v) => MessageLine(v)
        case JsonError => MalformedLine
        case OtherError => FatalLine
  }

  /** ClassifyLine with the client's decoder and deserializer fixed. */
  function Classifier<T>(urlDecode: string -> string, deserialize: string -> JsonOutcome<T>): (c: string -> LineKind<T>)
    ensures forall raw :: c(raw) == ClassifyLine(raw, urlDecode, deserialize)
  {
    raw => ClassifyLine(raw, urlDecode, deserialize)
  }

  /** A "data:" line whose payload holds no further "data:" delivers the
      deserialized payload. */
  lemma DataLineDelivers<T>(raw: string, json: string, v: T, urlDecode: string -> string, deserialize: string -> JsonOutcome<T>)
    requires urlDecode(raw) == DataPrefix + json
    requires !Contains(json, DataPrefix) && Trim(json) != []
    requires deserialize(Trim(json)) == Parsed(v)
    ensures ClassifyLine(raw, urlDecode, deserialize) == MessageLine(v)
  {
    var m := DataPrefix + json;
    RemoveAllLeadingOccurrence(DataPrefix, json);
    assert RemoveAll(json, DataPrefix) == json;
    assert Payload(m) == Trim(json);
    assert m[0] == 'd';
    TrimKeepsFirst(m);
    assert Trim(m) != CommentLine;
  }

  /** An SSE comment line with surrounding whitespace is a heartbeat. */
  lemma PaddedCommentIsHeartbeat<T>(raw: string, urlDecode: string -> string, deserialize: string -> JsonOutcome<T>)
    requires urlDecode(raw) == " :\r"
    ensures ClassifyLine(raw, urlDecode, deserialize) == HeartbeatLine
  {
    assert TrimStart(" :\r") == ":\r";
    assert TrimEnd(":\r") == ":";
  }

  // ---------------------------------------------------------------------
  // The read loop (SseClient.cs:205-245)
  // ---------------------------------------------------------------------

  /** How the loop ended: still reading; ended with the exception to report;
      Disconnect was called; or it broke on a fatal error and then found the
      stream still open, leaving the client Connected with nothing reading;
      or it broke and waits for the stream's end to report `error`. */
  datatype SseExit = Reading | Ended(error: StreamError) | Interrupted | Abandoned | FatalPending

  datatype SseRun<T> = SseRun(emitted: seq<Notification<T>>, exit: SseExit)

  /** After a fatal error the loop tests reader.EndOfStream once more. */
  function AfterFatal(rest: seq<SseStep>): (e: SseExit)
    ensures !e.Reading?
  {
    if rest == [] then FatalPending
    else
      match rest[0]
      case StreamEnded => Ended(DecodeFailed)
      case ReadFailure => Ended(ReadFailed)
      case DisconnectRequested => Interrupted
      case Line(_) => Abandoned
  }

  /** One pass of the loop body: the notifications it raises and the loop
      goes on; or the loop ends, and how; or a fatal error breaks out and
      the loop's end depends on the next read. */
  datatype SseTurn<T> = Proceed(raised: seq<Notification<T>>) | Finish(exit: SseExit) | Fatal

  function SseTurnOf<T>(step: SseStep, classify: string -> LineKind<T>): (t: SseTurn<T>)
    ensures t.Proceed? ==> |t.raised| <= 1
    ensures t.Proceed? ==> forall k :: 0 <= k < |t.raised| ==> t.raised[k].StreamHeartbeat? || t.raised[k].StreamMessage?
    ensures t.Finish? ==> !t.exit.Reading?
  {
    match step
    case StreamEnded => Finish(Ended(HttpRequestError(SuddenlyClosedMessage)))
    case ReadFailure => Finish(Ended(ReadFailed))
    case DisconnectRequested => Finish(Interrupted)
    case Line(raw) =>
      match classify(raw)
      case HeartbeatLine => Proceed([StreamHeartbeat])
      case MessageLine(v) => Proceed([StreamMessage(v)])
      case BlankLine => Proceed([])
      case MalformedLine => Proceed([])
      case FatalLine => Fatal
  }

  /** The notifications the loop raises and the way it ends. */
  function SseLoop<T>(steps: seq<SseStep>, classify: string -> LineKind<T>): (run: SseRun<T>)
    ensures |run.emitted| <= |steps|
    ensures forall k :: 0 <= k < |run.emitted| ==> run.emitted[k].StreamHeartbeat? || run.emitted[k].StreamMessage?
    decreases |steps|
  {
    if steps == [] then SseRun([], Reading)
    else
      match SseTurnOf(steps[0], classify)
      case Finish(e) => SseRun([], e)
      case Fatal => SseRun([], AfterFatal(steps[1..]))
      case Proceed(ns) =>
        var rest := SseLoop(steps[1..], classify);
        SseRun(ns + rest.emitted, rest.exit)
  }

  /** One turn of the loop at position `i`. */
  lemma SseLoopAt<T>(steps: seq<SseStep>, i: nat, classify: string -> LineKind<T>)
    requires i < |steps|
    ensures SseLoop(steps[i..], classify) ==
      match SseTurnOf(steps[i], classify)
      case Finish(e) => SseRun([], e)
      case Fatal => SseRun([], AfterFatal(steps[i + 1..]))
      case Proceed(ns) => SseRun(ns + SseLoop(steps[i + 1..], classify).emitted, SseLoop(steps[i + 1..], classify).exit)
  {
    assert steps[i..][0] == steps[i] && steps[i..][1..] == steps[i + 1..];
  }

  /** A turn that lets the loop go on puts its notifications first. */
  lemma SseLoopProceeds<T>(steps: seq<SseStep>, classify: string -> LineKind<T>)
    requires steps != [] && SseTurnOf(steps[0], classify).Proceed?
    ensures SseLoop(steps, classify)
         == SseRun(SseTurnOf(steps[0], classify).raised + SseLoop(steps[1..], classify).emitted,
                   SseLoop(steps[1..], classify).exit)
  {
  }

  /** Reading in two parts gives the notifications of both, in order. */
  lemma {:induction false} SseLoopAppend<T>(a: seq<SseStep>, b: seq<SseStep>, classify: string -> LineKind<T>)
    requires SseLoop(a, classify).exit == Reading
    ensures SseLoop(a + b, classify)
         == SseRun(SseLoop(a, classify).emitted + SseLoop(b, classify).emitted, SseLoop(b, classify).exit)
  {
    if a == [] {
      assert a + b == b;
    } else {
      var t := SseTurnOf(a[0], classify);
      assert t.Proceed?;
      assert (a + b)[0] == a[0] && (a + b)[1..] == a[1..] + b;
      SseLoopProceeds(a, classify);
      SseLoopProceeds(a + b, classify);
      SseLoopAppend(a[1..], b, classify);
      ConcatAssociative(t.raised, SseLoop(a[1..], classify).emitted, SseLoop(b, classify).emitted);
    }
  }

  /** Blank and malformed lines raise nothing and do not stop the loop. */
  lemma SkippedLinesAreSilent<T>(raw: string, rest: seq<SseStep>, classify: string -> LineKind<T>)
    requires classify(raw).BlankLine? || classify(raw).MalformedLine?
    ensures SseLoop([Line(raw)] + rest, classify) == SseLoop(rest, classify)
  {
    assert ([Line(raw)] + rest)[1..] == rest;
    assert [] + SseLoop(rest, classify).emitted == SseLoop(rest, classify).emitted;
  }

  /** Every message raised is the deserialized payload of a line read. */
  lemma {:induction false} SseMessagesComeFromLines<T>(steps: seq<SseStep>, classify: string -> LineKind<T>, k: nat)
    requires k < |SseLoop(steps, classify).emitted| && SseLoop(steps, classify).emitted[k].StreamMessage?
    ensures exists j :: 0 <= j < |steps| && steps[j].Line?
                        && classify(steps[j].raw) == MessageLine(SseLoop(steps, classify).emitted[k].value)
  {
    var run := SseLoop(steps, classify);
    var rest := SseLoop(steps[1..], classify);
    var kind := classify(steps[0].raw);
    if kind.MessageLine? && k == 0 {
    } else {
      var k' := if kind.BlankLine? || kind.MalformedLine? then k else k - 1;
      assert run.emitted[k] == rest.emitted[k'];
      SseMessagesComeFromLines(steps[1..], classify, k');
      var j :| 0 <= j < |steps[1..]| && steps[1..][j].Line?
               && classify(steps[1..][j].raw) == MessageLine(rest.emitted[k'].value);
      assert steps[j + 1] == steps[1..][j];
    }
  }

  /** With the client's classifier, every message raised is a payload that
      deserialized, taken from a line that was neither a comment nor blank. */
  lemma SseMessagesAreDeserializedPayloads<T>(steps: seq<SseStep>, urlDecode: string -> string, deserialize: string -> JsonOutcome<T>, k: nat)
    requires k < |SseLoop(steps, Classifier(urlDecode, deserialize)).emitted|
    requires SseLoop(steps, Classifier(urlDecode, deserialize)).emitted[k].StreamMessage?
    ensures exists j :: (0 <= j < |steps| && steps[j].Line?
                         && Trim(urlDecode(steps[j].raw)) != CommentLine && Payload(urlDecode(steps[j].raw)) != []
                         && deserialize(Payload(urlDecode(steps[j].raw))) == Parsed(SseLoop(steps, Classifier(urlDecode, deserialize)).emitted[k].value))
  {
    SseMessagesComeFromLines(steps, Classifier(urlDecode, deserialize), k);
  }

  /** A fatal deserialization error followed by another line leaves the
      client's loop finished without any exception being reported. */
  lemma FatalThenLineAbandons<T>(bad: string, next: string, rest: seq<SseStep>, classify: string -> LineKind<T>)
    requires classify(bad).FatalLine?
    ensures SseLoop([Line(bad), Line(next)] + rest, classify) == SseRun([], Abandoned)
  {
    assert ([Line(bad), Line(next)] + rest)[1..] == [Line(next)] + rest;
  }

  /** A fatal error followed by the end of the stream is reported. */
  lemma FatalThenEndReports<T>(bad: string, classify: string -> LineKind<T>)
    requires classify(bad).FatalLine?
    ensures SseLoop([Line(bad), StreamEnded], classify) == SseRun([], Ended(DecodeFailed))
  {
    assert [Line(bad), StreamEnded][1..] == [StreamEnded];
  }

  // ---------------------------------------------------------------------
  // The client's observable state and what each operation does to it
  // ---------------------------------------------------------------------

  datatype SseView<T> = SseView(
    state: ConnectionState,
    timerRunning: bool,
    notifications: seq<Notification<T>>,
    transport: seq<TransportCall>)

  /** Raising a notification; the internal handlers, wired only when the
      client was given a timer, start or stop it (SseClient.cs:105-111, 170-182). */
  function SseNotified<T>(v: SseView<T>, n: Notification<T>, wired: bool): (w: SseView<T>) {
    var v' := v.(notifications := v.notifications + [n]);
    if !wired then v'
    else
      match n
      case StreamConnected => v'.(timerRunning := false)
      case StreamDisconnected => v'.(timerRunning := false)
      case StreamException(_) => v'.(timerRunning := true)
      case _ => v'
  }

  /** Disconnect on a client that is not disposed: it cancels nothing
      (SseClient.cs:258-270). */
  function SseAfterDisconnect<T>(v: SseView<T>, wired: bool): (w: SseView<T>) {
    if v.state.IsDown() then v else SseNotified(v.(state := Disconnected), StreamDisconnected, wired)
  }

  function SseStartConnecting<T>(v: SseView<T>, endpoint: string): (w: SseView<T>) {
    v.(state := Connecting, transport := v.transport + [GetStream(endpoint)])
  }

  /** The rest of Connect once the stream request is issued (SseClient.cs:199-251). */
  function SseAfterSession<T>(v: SseView<T>, wired: bool, classify: string -> LineKind<T>, session: SseSession): (w: SseView<T>) {
    match session
    case NoStream => SseNotified(v.(state := Exception), StreamException(OpenFailed), wired)
    case LineStream(steps) =>
      var run := SseLoop(steps, classify);
      var c := SseNotified(v.(state := Connected), StreamConnected, wired);
      var c' := c.(notifications := c.notifications + run.emitted);
      match run.exit
      case Ended(e) => SseNotified(c'.(state := Exception), StreamException(e), wired)
      case Interrupted => SseAfterDisconnect(c', wired)
      case _ => c'
  }

  /** Connect on a client that is not disposed (SseClient.cs:188-252). */
  function SseAfterConnect<T>(v: SseView<T>, endpoint: string, wired: bool, classify: string -> LineKind<T>, session: SseSession): (w: SseView<T>) {
    if v.state.IsActive() then v else SseAfterSession(SseStartConnecting(v, endpoint), wired, classify, session)
  }

  /** HandleReconnectTimerElapse (SseClient.cs:155-163). */
  function SseAfterTimerElapse<T>(v: SseView<T>, endpoint: string, classify: string -> LineKind<T>, session: SseSession): (w: SseView<T>) {
    if !v.state.Exception? then v.(timerRunning := false)
    else SseAfterConnect(v, endpoint, true, classify, session)
  }

  /** Dispose on a client that is not yet disposed (SseClient.cs:115-148). */
  function SseAfterDispose<T>(v: SseView<T>): (w: SseView<T>) {
    var d := SseAfterDisconnect(v.(timerRunning := false), false);
    d.(transport := d.transport + [CancelPendingRequests, DisposeClient])
  }

  /** Without a timer the client never reconnects: a failed attempt leaves
      it in Exception with no timer running. With a timer a failure starts
      it, or keeps it running on a reconnect the timer itself started.
      Either way exactly one exception is reported, last. */
  lemma SseSessionOutcome<T>(v: SseView<T>, wired: bool, classify: string -> LineKind<T>, session: SseSession)
    requires !wired ==> !v.timerRunning
    ensures var w := SseAfterSession(v, wired, classify, session);
      |v.notifications| < |w.notifications| && w.notifications[..|v.notifications|] == v.notifications
      && (w.state.Exception? <==> session.NoStream? || SseLoop(session.steps, classify).exit.Ended?)
      && (w.state.Exception? ==> w.timerRunning == wired && w.notifications[|w.notifications| - 1].StreamException?
                                 && CountExceptions(w.notifications) == CountExceptions(v.notifications) + 1)
      && (!w.state.Exception? ==> (w.state.Connected? || w.state.Disconnected?) && !w.timerRunning
                                  && CountExceptions(w.notifications) == CountExceptions(v.notifications))
  {
    match session
    case NoStream =>
      var ns := v.notifications + [StreamException(OpenFailed)];
      assert SseAfterSession(v, wired, classify, session) == SseView(Exception, wired, ns, v.transport);
      assert ns[..|v.notifications|] == v.notifications;
      CountExceptionsAppend(v.notifications, [StreamException(OpenFailed)]);
    case LineStream(steps) =>
      SseStreamOutcome(v, wired, classify, steps);
  }

  /** A reconnect timer tick (SseClient.cs:155-163). Outside Exception it
      only stops the timer. In Exception it issues exactly one stream
      request; an attempt that fails again leaves the client in Exception
      with the timer still running and one more exception, raised last,
      and any other outcome stops the timer without an exception. */
  lemma SseTimerElapseOutcome<T>(v: SseView<T>, endpoint: string, classify: string -> LineKind<T>, session: SseSession)
    ensures var w := SseAfterTimerElapse(v, endpoint, classify, session);
      (!v.state.Exception? ==> w == v.(timerRunning := false))
      && (v.state.Exception? ==>
            w.transport == v.transport + [GetStream(endpoint)]
            && w.notifications[..|v.notifications|] == v.notifications
            && (w.state.Exception? ==> w.timerRunning && w.notifications[|w.notifications| - 1].StreamException?
                                       && CountExceptions(w.notifications) == CountExceptions(v.notifications) + 1)
            && (!w.state.Exception? ==> !w.timerRunning && CountExceptions(w.notifications) == CountExceptions(v.notifications)))
  {
    if v.state.Exception? {
      var c := SseStartConnecting(v, endpoint);
      SseSessionOutcome(c, true, classify, session);
      SseSessionKeepsTransport(c, true, classify, session);
    }
  }

  /** The rest of Connect issues no further request. */
  lemma SseSessionKeepsTransport<T>(v: SseView<T>, wired: bool, classify: string -> LineKind<T>, session: SseSession)
    ensures SseAfterSession(v, wired, classify, session).transport == v.transport
  {
  }

  /** How the session leaves the view: the notifications grow, and the
      state and the timer follow the way the loop ended. */
  lemma SseStreamShape<T>(v: SseView<T>, wired: bool, classify: string -> LineKind<T>, steps: seq<SseStep>)
    requires !wired ==> !v.timerRunning
    ensures var w := SseAfterSession(v, wired, classify, LineStream(steps));
      |v.notifications| < |w.notifications| && w.notifications[..|v.notifications|] == v.notifications
      && (w.state.Exception? <==> SseLoop(steps, classify).exit.Ended?)
      && (w.state.Exception? ==> w.timerRunning == wired && w.notifications[|w.notifications| - 1].StreamException?)
      && (!w.state.Exception? ==> (w.state.Connected? || w.state.Disconnected?) && !w.timerRunning)
  {
    var run := SseLoop(steps, classify);
    var ns := v.notifications + [StreamConnected] + run.emitted;
    assert ns[..|v.notifications|] == v.notifications;
    var w := SseAfterSession(v, wired, classify, LineStream(steps));
    match run.exit {
      case Ended(e) =>
        assert w == SseView(Exception, wired, ns + [StreamException(e)], v.transport);
      case Interrupted =>
        assert w == SseView(Disconnected, false, ns + [StreamDisconnected], v.transport);
      case _ =>
        assert w == SseView(Connected, false, ns, v.transport);
    }
  }

  /** A session adds exactly one exception when its loop ends in error and
      none otherwise. */
  lemma SseStreamCounts<T>(v: SseView<T>, wired: bool, classify: string -> LineKind<T>, steps: seq<SseStep>)
    ensures var w := SseAfterSession(v, wired, classify, LineStream(steps));
      (SseLoop(steps, classify).exit.Ended? ==> CountExceptions(w.notifications) == CountExceptions(v.notifications) + 1)
      && (!SseLoop(steps, classify).exit.Ended? ==> CountExceptions(w.notifications) == CountExceptions(v.notifications))
  {
    var run := SseLoop(steps, classify);
    var ns := v.notifications + [StreamConnected] + run.emitted;
    var w := SseAfterSession(v, wired, classify, LineStream(steps));
    match run.exit {
      case Ended(e) =>
        assert w.notifications == ns + [StreamException(e)];
        CountAroundRun(v.notifications, run.emitted, [StreamException(e)]);
        CountOneException<T>(e);
      case Interrupted =>
        assert w.notifications == ns + [StreamDisconnected];
        CountAroundRun(v.notifications, run.emitted, [StreamDisconnected]);
        var last: seq<Notification<T>> := [StreamDisconnected];
        assert last[1..] == [];
      case _ =>
        assert w.notifications == ns;
        CountAroundRun(v.notifications, run.emitted, []);
        assert ns + [] == ns;
    }
  }

  /** SseSessionOutcome once the stream is open. */
  lemma SseStreamOutcome<T>(v: SseView<T>, wired: bool, classify: string -> LineKind<T>, steps: seq<SseStep>)
    requires !wired ==> !v.timerRunning
    ensures var w := SseAfterSession(v, wired, classify, LineStream(steps));
      |v.notifications| < |w.notifications| && w.notifications[..|v.notifications|] == v.notifications
      && (w.state.Exception? <==> SseLoop(steps, classify).exit.Ended?)
      && (w.state.Exception? ==> w.timerRunning == wired && w.notifications[|w.notifications| - 1].StreamException?
                                 && CountExceptions(w.notifications) == CountExceptions(v.notifications) + 1)
      && (!w.state.Exception? ==> (w.state.Connected? || w.state.Disconnected?) && !w.timerRunning
                                  && CountExceptions(w.notifications) == CountExceptions(v.notifications))
  {
    SseStreamShape(v, wired, classify, steps);
    SseStreamCounts(v, wired, classify, steps);
  }

  /** A stream that ends at once is reported as suddenly closed. */
  lemma SseImmediatelyClosedStream<T>(v: SseView<T>, endpoint: string, wired: bool, classify: string -> LineKind<T>)
    requires v.state.Disconnected?
    ensures var w := SseAfterConnect(v, endpoint, wired, classify, LineStream([StreamEnded]));
      w.state.Exception? && w.timerRunning == (wired || v.timerRunning)
      && w.notifications == v.notifications + [StreamConnected, StreamException(HttpRequestError(SuddenlyClosedMessage))]
      && w.transport == v.transport + [GetStream(endpoint)]
  {
    assert SseLoop<T>([StreamEnded], classify) == SseRun([], Ended(HttpRequestError(SuddenlyClosedMessage)));
  }

  // ---------------------------------------------------------------------
  // The client object
  // ---------------------------------------------------------------------

  class SseClient<T> {
    const endpoint: string
    /** Whether the owner supplied a reconnect timer. */
    const hasTimer: bool
    /** HttpUtility.UrlDecode followed by JsonSerializer.Deserialize<T>,
        as ClassifyLine combines them. */
    const classify: string -> LineKind<T>

    var state: ConnectionState
    var disposedValue: bool
    var handlersWired: bool
    var timerRunning: bool
    var notifications: seq<Notification<T>>
    var transport: seq<TransportCall>

    ghost function View(): (w: SseView<T>)
      reads this
    {
      SseView(state, timerRunning, notifications, transport)
    }

    /** The handlers are wired exactly while a supplied timer is not
        disposed; a timer that is absent or disposed does not run. */
    ghost predicate Valid()
      reads this
    {
      handlersWired == (hasTimer && !disposedValue)
      && (!handlersWired ==> !timerRunning)
    }

    constructor (endpoint: string, hasTimer: bool, urlDecode: string -> string, deserialize: string -> JsonOutcome<T>)
      ensures Valid() && !disposedValue && handlersWired == hasTimer
      ensures this.endpoint == endpoint && this.hasTimer == hasTimer
      ensures classify == Classifier(urlDecode, deserialize)
      ensures View() == SseView(Disconnected, false, [], [])
    {
      this.endpoint := endpoint;
      this.hasTimer := hasTimer;
      classify := Classifier(urlDecode, deserialize);
      state := Disconnected;
      disposedValue := false;
      handlersWired := hasTimer;
      timerRunning := false;
      notifications := [];
      transport := [];
    }

    method Notify(n: Notification<T>)
      modifies this
      ensures View() == SseNotified(old(View()), n, handlersWired)
      ensures state == old(state) && transport == old(transport) && notifications == old(notifications) + [n]
      ensures n.StreamHeartbeat? || n.StreamMessage? ==> timerRunning == old(timerRunning)
      ensures disposedValue == old(disposedValue) && handlersWired == old(handlersWired)
    {
      notifications := notifications + [n];
      if handlersWired {
        match n
        case StreamConnected =>
          timerRunning := false;
        case StreamDisconnected =>
          timerRunning := false;
        case StreamException(_) =>
          timerRunning := true;
        case _ =>
      }
    }

    /** Disconnect (SseClient.cs:258-270). */
    method Disconnect() returns (r: CallResult)
      modifies this
      ensures old(disposedValue) ==> r == ObjectDisposed && unchanged(this)
      ensures !old(disposedValue) ==> r == Completed && View() == SseAfterDisconnect(old(View()), handlersWired)
      ensures !old(disposedValue) && old(state).Connected? ==>
        state.Disconnected? && notifications == old(notifications) + [StreamDisconnected]
        && transport == old(transport) && (handlersWired ==> !timerRunning)
        && (!handlersWired ==> timerRunning == old(timerRunning))
      ensures disposedValue == old(disposedValue) && handlersWired == old(handlersWired)
      ensures old(Valid()) ==> Valid()
    {
      if disposedValue {
        return ObjectDisposed;
      }
      r := Completed;
      if state.Disconnecting? || state.Disconnected? {
        return;
      }
      state := Disconnecting;
      state := Disconnected;
      Notify(StreamDisconnected);
    }

    /** Connect (SseClient.cs:188-252). */
    method Connect(session: SseSession) returns (r: CallResult)
      requires Valid()
      modifies this
      ensures old(disposedValue) ==> r == ObjectDisposed && unchanged(this)
      ensures !old(disposedValue) ==> r == Completed && View() == SseAfterConnect(old(View()), endpoint, handlersWired, classify, session)
      ensures old(state).IsActive() ==> unchanged(this)
      ensures disposedValue == old(disposedValue) && Valid()
    {
      if disposedValue {
        return ObjectDisposed;
      }
      r := Completed;
      if state.Connecting? || state.Connected? {
        return;
      }
      state := Connecting;
      transport := transport + [GetStream(endpoint)];
      match session {
        case NoStream =>
          state := Exception;
          Notify(StreamException(OpenFailed));
        case LineStream(steps) =>
          state := Connected;
          Notify(StreamConnected);
          var exit := RunLoop(steps);
          if exit.Ended? {
            state := Exception;
            Notify(StreamException(exit.error));
          }
      }
    }

    /** One pass of the read loop's body (SseClient.cs:210-238): the
        notifications raised are those of SseTurnOf. */
    method ReadOne(step: SseStep) returns (t: SseTurn<T>)
      modifies this
      ensures t == SseTurnOf(step, classify)
      ensures notifications == old(notifications) + (if t.Proceed? then t.raised else [])
      ensures state == old(state) && timerRunning == old(timerRunning) && transport == old(transport)
      ensures disposedValue == old(disposedValue) && handlersWired == old(handlersWired)
    {
      match step {
        case StreamEnded =>
          t := Finish(Ended(HttpRequestError(SuddenlyClosedMessage)));
        case ReadFailure =>
          t := Finish(Ended(ReadFailed));
        case DisconnectRequested =>
          t := Finish(Interrupted);
        case Line(raw) =>
          match classify(raw) {
            case HeartbeatLine =>
              Notify(StreamHeartbeat);
              t := Proceed([StreamHeartbeat]);
            case MessageLine(data) =>
              Notify(StreamMessage(data));
              t := Proceed([StreamMessage(data)]);
            case BlankLine =>
              t := Proceed([]);
            case MalformedLine =>
              t := Proceed([]);
            case FatalLine =>
              t := Fatal;
          }
      }
    }

    /** The read loop, entered in Connected. The owner's Disconnect ends the
        loop; nothing runs between the two. */
    method RunLoop(steps: seq<SseStep>) returns (exit: SseExit)
      requires state.Connected? && !disposedValue && Valid()
      modifies this
      ensures disposedValue == old(disposedValue) && handlersWired == old(handlersWired)
      ensures var run := SseLoop(steps, classify);
        var c := old(View()).(notifications := old(notifications) + run.emitted);
        exit == run.exit
        && (if exit.Interrupted? then View() == SseAfterDisconnect(c, handlersWired) else View() == c)
    {
      ghost var n0 := notifications;
      ghost var emitted: seq<Notification<T>> := [];
      exit := Reading;
      var i := 0;
      while exit.Reading? && i < |steps|
        invariant 0 <= i <= |steps|
        invariant !disposedValue && handlersWired == old(handlersWired)
        invariant state.Connected? && timerRunning == old(timerRunning) && transport == old(transport)
        invariant notifications == n0 + emitted
        invariant exit.Reading? ==>
          SseLoop(steps, classify)
          == SseRun(emitted + SseLoop(steps[i..], classify).emitted, SseLoop(steps[i..], classify).exit)
        invariant !exit.Reading? ==> SseLoop(steps, classify) == SseRun(emitted, exit)
        decreases |steps| - i
      {
        ghost var here := SseLoop(steps[i..], classify);
        ghost var rest := SseLoop(steps[i + 1..], classify);
        SseLoopAt(steps, i, classify);
        var t := ReadOne(steps[i]);
        match t {
          case Finish(e) =>
            assert here == SseRun([], e);
            assert emitted + [] == emitted;
            exit := e;
          case Fatal =>
            assert here == SseRun([], AfterFatal(steps[i + 1..]));
            assert emitted + [] == emitted;
            // reader.EndOfStream is tested once more after the break.
            exit := AfterFatal(steps[i + 1..]);
          case Proceed(ns) =>
            assert here == SseRun(ns + rest.emitted, rest.exit);
            ConcatAssociative(emitted, ns, rest.emitted);
            ConcatAssociative(n0, emitted, ns);
            emitted := emitted + ns;
        }
        i := i + 1;
      }
      if exit.Reading? {
        assert steps[i..] == [];
      }
      if exit.Interrupted? {
        var _ := Disconnect();
      }
    }

    /** HandleReconnectTimerElapse (SseClient.cs:155-163), reached only while
        the handlers are wired. */
    method TimerElapsed(session: SseSession)
      requires Valid()
      modifies this
      ensures !handlersWired ==> unchanged(this)
      ensures handlersWired ==> View() == SseAfterTimerElapse(old(View()), endpoint, classify, session)
      ensures disposedValue == old(disposedValue) && Valid()
    {
      if !handlersWired {
        return;
      }
      if !state.Exception? {
        timerRunning := false;
        return;
      }
      var _ := Connect(session);
    }

    /** Dispose (SseClient.cs:115-148): idempotent. */
    method Dispose()
      requires Valid()
      modifies this
      ensures old(disposedValue) ==> unchanged(this)
      ensures !old(disposedValue) ==> View() == SseAfterDispose(old(View()))
      ensures disposedValue && !handlersWired && Valid()
    {
      if disposedValue {
        return;
      }
      handlersWired := false;
      timerRunning := false;
      var _ := Disconnect();
      transport := transport + [CancelPendingRequests, DisposeClient];
      disposedValue := true;
    }
  }
}
