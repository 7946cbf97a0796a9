/** The binary (MessagePack) event-stream client of src/Client/Http/StreamClient.cs:
    its five connection states, the reconnect timer with linear, capped
    backoff, the frame classification of the read loop, and the client
    object whose methods move between the states.

    Everything the client's observers see is appended to a notification
    log; every call the client makes on its HTTP client is appended to a
    transport log. A connection attempt consumes a given list of read
    outcomes; the MessagePack decoder is a parameter. */
module HttpStreamClient {
  import opened Wrappers
  import opened Primitives

  /** StreamClientConnectionState. */
  datatype ConnectionState = Connected | Connecting | Disconnecting | Disconnected | Exception {
    /** The states in which Connect returns at once. */
    predicate IsActive() { Connecting? || Connected? }
    /** The states in which Disconnect returns at once. */
    predicate IsDown() { Disconnecting? || Disconnected? }
  }

  /** StreamClientSettings; the durations are whole milliseconds. */
  datatype Settings = Settings(reconnectDelayMin: nat, reconnectDelayMax: nat, reconnectDelayIncrement: nat)

  /** A one-byte frame holding an empty MessagePack array is a heartbeat. */
  const HeartbeatMarker: seq<byte> := [0x90]

  /** The largest interval, in milliseconds, a System.Timers.Timer accepts
      (Int32.MaxValue); it also refuses intervals of zero or less. */
  const MaxTimerIntervalMs: nat := 0x7FFF_FFFF

  const SuddenlyClosedMessage: string := "Connection to stream suddenly closed."

  /** The exceptions the client reports. */
  datatype StreamError =
    | OpenFailed                         // GetStreamAsync threw
    | ReadFailed                         // ReadAsync threw
    | DecodeFailed                       // MessagePackSerializer.Deserialize threw
    | HttpRequestError(message: string)  // synthesised when the stream ends

  /** What the five public events deliver to observers, in order. */
  datatype Notification<T> =
    | StreamConnected
    | StreamDisconnected
    | StreamHeartbeat
    | StreamMessage(value: T)
    | StreamException(error: StreamError)

  /** The calls the client makes on the HTTP client it owns. */
  datatype TransportCall = GetStream(url: string) | CancelPendingRequests | DisposeClient

  /** One outcome of the read loop's next step: a whole frame, the reader's
      null (end of stream), a read that throws, or the owner calling
      Disconnect while the loop waits for the next frame. */
  datatype ReadStep = Frame(bytes: seq<byte>) | EndOfStream | ReadError | DisconnectCalled

  /** What the transport does with one connection attempt. A finite list of
      steps that runs out leaves the loop waiting for the next frame. */
  datatype Session = OpenFailure | Opened(steps: seq<ReadStep>)

  /** An operation either completes or throws ObjectDisposedException. */
  datatype CallResult = Completed | ObjectDisposed

  // ---------------------------------------------------------------------
  // Backoff policy (StreamClient.cs:170-187, 200-214)
  // ---------------------------------------------------------------------

  /** The interval after one reconnect attempt: the increment is added only
      while the interval is below the maximum, so it may end above it. */
  function NextInterval(s: Settings, interval: nat): (r: nat)
    ensures interval <= r
    ensures r == interval <==> interval >= s.reconnectDelayMax || s.reconnectDelayIncrement == 0
    ensures interval < s.reconnectDelayMax ==> r < s.reconnectDelayMax + s.reconnectDelayIncrement
  {
    if interval < s.reconnectDelayMax then interval + s.reconnectDelayIncrement else interval
  }

  /** The interval after `n` consecutive failed reconnect attempts. */
  function IntervalAfter(s: Settings, n: nat): (r: nat) {
    if n == 0 then s.reconnectDelayMin else NextInterval(s, IntervalAfter(s, n - 1))
  }

  /** The bound the timer interval always keeps: it is the minimum, or at
      least the minimum and less than one increment above the maximum. */
  predicate WithinBackoffBound(s: Settings, interval: nat) {
    s.reconnectDelayMin <= interval
    && (interval == s.reconnectDelayMin || interval < s.reconnectDelayMax + s.reconnectDelayIncrement)
  }

  lemma {:induction false} IntervalAfterWithinBound(s: Settings, n: nat)
    ensures WithinBackoffBound(s, IntervalAfter(s, n))
  {
    if n > 0 {
      IntervalAfterWithinBound(s, n - 1);
    }
  }

  /** Below the maximum the backoff is linear. */
  lemma {:induction false} IntervalAfterLinear(s: Settings, n: nat)
    requires IntervalAfter(s, n) < s.reconnectDelayMax
    ensures IntervalAfter(s, n) == s.reconnectDelayMin + n * s.reconnectDelayIncrement
  {
    if n > 0 {
      IntervalAfterLinear(s, n - 1);
    }
  }

  /** Once at or past the maximum the interval no longer changes. */
  lemma {:induction false} IntervalAfterFrozen(s: Settings, n: nat, j: nat)
    requires IntervalAfter(s, n) >= s.reconnectDelayMax
    ensures IntervalAfter(s, n + j) == IntervalAfter(s, n)
  {
    if j > 0 {
      IntervalAfterFrozen(s, n, j - 1);
    }
  }

  /** The maximum is not a hard cap: 1 s, 2 s, 3 s with a 2.5 s maximum. */
  lemma IntervalOvershootsMaximum()
    ensures IntervalAfter(Settings(1000, 2500, 1000), 2) == 3000
  {
    assert IntervalAfter(Settings(1000, 2500, 1000), 1) == 2000;
  }

  // ---------------------------------------------------------------------
  // Frame classification and the read loop (StreamClient.cs:237-264)
  // ---------------------------------------------------------------------

  datatype FrameKind<T> = HeartbeatFrame | MessageFrame(value: T) | UndecodableFrame

  /** How the read loop treats one frame. */
  function ClassifyFrame<T>(bytes: seq<byte>, decode: seq<byte> -> Option<T>): (k: FrameKind<T>)
    ensures k.HeartbeatFrame? <==> bytes == HeartbeatMarker
    ensures k.MessageFrame? <==> bytes != HeartbeatMarker && decode(bytes).Some?
    ensures k.MessageFrame? ==> decode(bytes) == Some(k.value)
  {
    if |bytes| == 1 && bytes[0] == 0x90 then HeartbeatFrame
    else
      match decode(bytes)
      case Some(v) => MessageFrame(v)
      case None => UndecodableFrame
  }

  /** Why the read loop stopped: it still waits for a frame, it broke out
      (with the caught exception, or none for a null read), or the state
      left Connected. */
  datatype LoopExit = Suspended | Broke(cause: Option<StreamError>) | LeftConnected

  datatype LoopRun<T> = LoopRun(emitted: seq<Notification<T>>, exit: LoopExit)

  function Emit<T>(n: Notification<T>, run: LoopRun<T>): (r: LoopRun<T>) {
    LoopRun([n] + run.emitted, run.exit)
  }

  /** One pass of the loop body: the notifications it raises and whether
      the loop goes on or stops, and how. */
  datatype Turn<T> = Continue(raised: seq<Notification<T>>) | Stop(exit: LoopExit)

  function ReadTurn<T>(step: ReadStep, decode: seq<byte> -> Option<T>): (t: Turn<T>)
    ensures t.Continue? <==> Continues(step, decode)
    ensures t.Continue? ==> |t.raised| == 1 && (t.raised[0].StreamHeartbeat? || t.raised[0].StreamMessage?)
  {
    match step
    case EndOfStream => Stop(Broke(None))
    case ReadError => Stop(Broke(Some(ReadFailed)))
    case DisconnectCalled => Stop(LeftConnected)
    case Frame(b) =>
      match ClassifyFrame(b, decode)
      case HeartbeatFrame => Continue([StreamHeartbeat])
      case MessageFrame(v) => Continue([StreamMessage(v)])
      case UndecodableFrame => Stop(Broke(Some(DecodeFailed)))
  }

  /** The notifications the read loop raises and the way it ends. */
  function ReadLoop<T>(steps: seq<ReadStep>, decode: seq<byte> -> Option<T>): (run: LoopRun<T>)
    ensures |run.emitted| <= |steps|
    ensures forall k :: 0 <= k < |run.emitted| ==> run.emitted[k].StreamHeartbeat? || run.emitted[k].StreamMessage?
    decreases |steps|
  {
    if steps == [] then LoopRun([], Suspended)
    else
      match ReadTurn(steps[0], decode)
      case Stop(e) => LoopRun([], e)
      case Continue(ns) =>
        var rest := ReadLoop(steps[1..], decode);
        LoopRun(ns + rest.emitted, rest.exit)
  }

  /** One turn of the read loop at position `i`. */
  lemma ReadLoopAt<T>(steps: seq<ReadStep>, i: nat, decode: seq<byte> -> Option<T>)
    requires i < |steps|
    ensures ReadLoop(steps[i..], decode) ==
      match ReadTurn(steps[i], decode)
      case Stop(e) => LoopRun([], e)
      case Continue(ns) => LoopRun(ns + ReadLoop(steps[i + 1..], decode).emitted, ReadLoop(steps[i + 1..], decode).exit)
  {
    assert steps[i..][0] == steps[i] && steps[i..][1..] == steps[i + 1..];
  }

  /** A frame the loop accepts and continues after. */
  predicate Continues<T>(step: ReadStep, decode: seq<byte> -> Option<T>) {
    step.Frame? && !ClassifyFrame(step.bytes, decode).UndecodableFrame?
  }

  /** The loop keeps waiting exactly when every read so far was a heartbeat
      or a decodable frame; then it raised one notification per frame. */
  lemma {:induction false} ReadLoopSuspendedIff<T>(steps: seq<ReadStep>, decode: seq<byte> -> Option<T>)
    ensures ReadLoop(steps, decode).exit == Suspended <==> forall k :: 0 <= k < |steps| ==> Continues(steps[k], decode)
    ensures ReadLoop(steps, decode).exit == Suspended ==> |ReadLoop(steps, decode).emitted| == |steps|
  {
    if steps != [] {
      ReadLoopSuspendedIff(steps[1..], decode);
      if Continues(steps[0], decode) {
        forall k | 1 <= k < |steps| ensures steps[k] == steps[1..][k - 1] { }
      }
    }
  }

  /** Reading in two parts gives the notifications of both, in order. */
  lemma {:induction false} ReadLoopAppend<T>(a: seq<ReadStep>, b: seq<ReadStep>, decode: seq<byte> -> Option<T>)
    requires ReadLoop(a, decode).exit == Suspended
    ensures ReadLoop(a + b, decode) == LoopRun(ReadLoop(a, decode).emitted + ReadLoop(b, decode).emitted, ReadLoop(b, decode).exit)
  {
    if a == [] {
      assert a + b == b;
    } else {
      assert (a + b)[0] == a[0];
      assert (a + b)[1..] == a[1..] + b;
      ReadLoopAppend(a[1..], b, decode);
      ConcatAssociative(ReadTurn(a[0], decode).raised, ReadLoop(a[1..], decode).emitted, ReadLoop(b, decode).emitted);
    }
  }

  /** Heartbeat frames raise heartbeats and never a message. */
  lemma {:induction false} ReadLoopHeartbeatsOnly<T>(steps: seq<ReadStep>, decode: seq<byte> -> Option<T>)
    requires forall k :: 0 <= k < |steps| ==> steps[k] == Frame(HeartbeatMarker)
    ensures ReadLoop(steps, decode) == LoopRun(seq<Notification<T>>(|steps|, _ => StreamHeartbeat), Suspended)
  {
    if steps != [] {
      assert forall k :: 0 <= k < |steps| - 1 ==> steps[1..][k] == steps[k + 1];
      ReadLoopHeartbeatsOnly(steps[1..], decode);
      assert [StreamHeartbeat] + seq(|steps| - 1, _ => StreamHeartbeat) == seq<Notification<T>>(|steps|, _ => StreamHeartbeat);
    }
  }

  /** Every message raised is the decoding of a non-heartbeat frame read. */
  lemma {:induction false} ReadLoopMessagesAreDecodedFrames<T>(steps: seq<ReadStep>, decode: seq<byte> -> Option<T>, k: nat)
    requires k < |ReadLoop(steps, decode).emitted| && ReadLoop(steps, decode).emitted[k].StreamMessage?
    ensures exists j :: 0 <= j < |steps| && steps[j].Frame? && steps[j].bytes != HeartbeatMarker
                        && decode(steps[j].bytes) == Some(ReadLoop(steps, decode).emitted[k].value)
  {
    var run := ReadLoop(steps, decode);
    if k > 0 {
      var rest := ReadLoop(steps[1..], decode);
      assert run.emitted[k] == rest.emitted[k - 1];
      ReadLoopMessagesAreDecodedFrames(steps[1..], decode, k - 1);
      var j :| 0 <= j < |steps[1..]| && steps[1..][j].Frame? && steps[1..][j].bytes != HeartbeatMarker
               && decode(steps[1..][j].bytes) == Some(rest.emitted[k - 1].value);
      assert steps[j + 1] == steps[1..][j];
    } else {
      assert steps[0].Frame?;
    }
  }

  /** The three-frame scenario: a heartbeat and two records give one
      heartbeat and the two messages, in order, and the loop keeps reading. */
  lemma HeartbeatThenTwoRecords<T>(a: seq<byte>, b: seq<byte>, x: T, y: T, decode: seq<byte> -> Option<T>)
    requires a != HeartbeatMarker && b != HeartbeatMarker
    requires decode(a) == Some(x) && decode(b) == Some(y)
    ensures ReadLoop([Frame(HeartbeatMarker), Frame(a), Frame(b)], decode)
         == LoopRun([StreamHeartbeat, StreamMessage(x), StreamMessage(y)], Suspended)
  {
    var steps := [Frame(HeartbeatMarker), Frame(a), Frame(b)];
    assert steps[1..] == [Frame(a), Frame(b)];
    assert [Frame(a), Frame(b)][1..] == [Frame(b)];
    assert [Frame(b)][1..] == [];
    assert ReadLoop([Frame(b)], decode) == LoopRun([StreamMessage(y)], Suspended);
    assert ReadLoop([Frame(a), Frame(b)], decode) == LoopRun([StreamMessage(x), StreamMessage(y)], Suspended);
  }

  // ---------------------------------------------------------------------
  // The client's observable state and what each operation does to it
  // ---------------------------------------------------------------------

  /** The part of the client that operations change while it is not disposed. */
  datatype ClientView<T> = ClientView(
    state: ConnectionState,
    timerRunning: bool,
    timerInterval: nat,
    notifications: seq<Notification<T>>,
    transport: seq<TransportCall>)

  /** Raising a notification: observers see it, then the internal handlers
      wired in the constructor run (StreamClient.cs:125-129, 194, 200-214). */
  function Notified<T>(v: ClientView<T>, n: Notification<T>, wired: bool, s: Settings): (w: ClientView<T>) {
    var v' := v.(notifications := v.notifications + [n]);
    if !wired then v'
    else
      match n
      case StreamConnected => v'.(timerInterval := s.reconnectDelayMin, timerRunning := false)
      case StreamDisconnected => v'.(timerInterval := s.reconnectDelayMin, timerRunning := false)
      case StreamException(_) => v'.(timerRunning := true)
      case _ => v'
  }

  /** Disconnect on a client that is not disposed (StreamClient.cs:280-287). */
  function AfterDisconnect<T>(v: ClientView<T>, wired: bool, s: Settings): (w: ClientView<T>) {
    if v.state.IsDown() then v
    else Notified(v.(state := Disconnected, transport := v.transport + [CancelPendingRequests]), StreamDisconnected, wired, s)
  }

  /** The synchronous start of Connect: the state becomes Connecting and the
      stream request is issued (StreamClient.cs:231-232). */
  function StartConnecting<T>(v: ClientView<T>, url: string): (w: ClientView<T>) {
    v.(state := Connecting, transport := v.transport + [GetStream(url)])
  }

  /** The rest of Connect once the stream request has been issued
      (StreamClient.cs:232-270). */
  function AfterSession<T>(v: ClientView<T>, s: Settings, decode: seq<byte> -> Option<T>, session: Session): (w: ClientView<T>) {
    match session
    case OpenFailure => Notified(v.(state := Exception), StreamException(OpenFailed), true, s)
    case Opened(steps) =>
      var run := ReadLoop(steps, decode);
      var c := Notified(v.(state := Connected), StreamConnected, true, s);
      var c' := c.(notifications := c.notifications + run.emitted);
      match run.exit
      case Suspended => c'
      case Broke(cause) => Notified(c'.(state := Exception), StreamException(cause.GetOr(HttpRequestError(SuddenlyClosedMessage))), true, s)
      case LeftConnected => AfterDisconnect(c', true, s)
  }

  /** Connect on a client that is not disposed (StreamClient.cs:223-270). */
  function AfterConnect<T>(v: ClientView<T>, url: string, s: Settings, decode: seq<byte> -> Option<T>, session: Session): (w: ClientView<T>) {
    if v.state.IsActive() then v else AfterSession(StartConnecting(v, url), s, decode, session)
  }

  /** HandleReconnectTimerElapse (StreamClient.cs:170-187). Connect is
      asynchronous: it returns to this handler at its first await, so the
      increment is applied before the attempt's outcome is known. */
  function AfterTimerElapse<T>(v: ClientView<T>, url: string, s: Settings, decode: seq<byte> -> Option<T>, session: Session): (w: ClientView<T>) {
    if !v.state.Exception? then v.(timerInterval := s.reconnectDelayMin, timerRunning := false)
    else
      var started := StartConnecting(v, url);
      AfterSession(started.(timerInterval := NextInterval(s, v.timerInterval)), s, decode, session)
  }

  /** Dispose on a client that is not yet disposed (StreamClient.cs:141-162):
      the handlers are unwired and the timer disposed before Disconnect runs. */
  function AfterDispose<T>(v: ClientView<T>, s: Settings): (w: ClientView<T>) {
    var d := AfterDisconnect(v.(timerRunning := false), false, s);
    d.(transport := d.transport + [CancelPendingRequests, DisposeClient])
  }

  // ---------------------------------------------------------------------
  // Properties of the transitions
  // ---------------------------------------------------------------------

  function CountExceptions<T>(ns: seq<Notification<T>>): (r: nat) {
    if ns == [] then 0 else (if ns[0].StreamException? then 1 else 0) + CountExceptions(ns[1..])
  }

  lemma {:induction false} CountExceptionsAppend<T>(a: seq<Notification<T>>, b: seq<Notification<T>>)
    ensures CountExceptions(a + b) == CountExceptions(a) + CountExceptions(b)
  {
    if a == [] {
      assert a + b == b;
    } else {
      assert (a + b)[1..] == a[1..] + b;
      CountExceptionsAppend(a[1..], b);
    }
  }

  lemma {:induction false} NoExceptionsInRun<T>(ns: seq<Notification<T>>)
    requires forall k :: 0 <= k < |ns| ==> ns[k].StreamHeartbeat? || ns[k].StreamMessage?
    ensures CountExceptions(ns) == 0
  {
    if ns != [] {
      assert forall k :: 0 <= k < |ns| - 1 ==> ns[1..][k] == ns[k + 1];
      NoExceptionsInRun(ns[1..]);
    }
  }

  /** The exceptions counted around one attempt's run: those before it
      and those of the notification that ends the attempt. */
  lemma CountAroundRun<T>(prefix: seq<Notification<T>>, run: seq<Notification<T>>, last: seq<Notification<T>>)
    requires forall k :: 0 <= k < |run| ==> run[k].StreamHeartbeat? || run[k].StreamMessage?
    ensures CountExceptions(prefix + [StreamConnected] + run + last) == CountExceptions(prefix) + CountExceptions(last)
  {
    NoExceptionsInRun(run);
    var connected: seq<Notification<T>> := [StreamConnected];
    assert connected[1..] == [];
    assert CountExceptions(connected) == 0;
    CountExceptionsAppend(prefix + [StreamConnected] + run, last);
    CountExceptionsAppend(prefix + [StreamConnected], run);
    CountExceptionsAppend(prefix, [StreamConnected]);
  }

  /** One raised exception counts once. */
  lemma CountOneException<T>(e: StreamError)
    ensures CountExceptions<T>([StreamException(e)]) == 1
  {
    var raised: seq<Notification<T>> := [StreamException(e)];
    assert raised[1..] == [];
  }

  /** What a connection attempt promises about the view `w` it leaves
      behind, starting from `v`: it ends in Exception exactly when the stream
      could not be opened or the loop broke out while still Connected; then
      one exception notification is raised, last, and the timer runs.
      Otherwise no exception is raised and the state is Connected (still
      reading) or Disconnected (Disconnect was called), never Exception. */
  ghost predicate SessionPromise<T>(v: ClientView<T>, w: ClientView<T>, s: Settings, decode: seq<byte> -> Option<T>, session: Session) {
    |v.notifications| < |w.notifications| && w.notifications[..|v.notifications|] == v.notifications
    && (w.state.Exception? <==> session.OpenFailure? || ReadLoop(session.steps, decode).exit.Broke?)
    && (w.state.Exception? ==> w.timerRunning && w.notifications[|w.notifications| - 1].StreamException?
                               && CountExceptions(w.notifications) == CountExceptions(v.notifications) + 1)
    && (!w.state.Exception? ==> (w.state.Connected? || w.state.Disconnected?) && !w.timerRunning
                                && w.timerInterval == s.reconnectDelayMin
                                && CountExceptions(w.notifications) == CountExceptions(v.notifications))
  }

  /** Every connection attempt, from any view, keeps SessionPromise. */
  lemma SessionOutcome<T>(v: ClientView<T>, s: Settings, decode: seq<byte> -> Option<T>, session: Session)
    ensures SessionPromise(v, AfterSession(v, s, decode, session), s, decode, session)
  {
    match session
    case OpenFailure =>
      CountExceptionsAppend(v.notifications, [StreamException(OpenFailed)]);
    case Opened(steps) =>
      OpenedSessionOutcome(v, s, decode, steps);
  }

  /** SessionOutcome for a stream that was opened: the exceptions counted
      are those of the connected notification, the loop's run and the
      notification that ends the attempt. */
  lemma OpenedSessionOutcome<T>(v: ClientView<T>, s: Settings, decode: seq<byte> -> Option<T>, steps: seq<ReadStep>)
    ensures SessionPromise(v, AfterSession(v, s, decode, Opened(steps)), s, decode, Opened(steps))
  {
    var run := ReadLoop(steps, decode);
    var ns := v.notifications + [StreamConnected] + run.emitted;
    var w := AfterSession(v, s, decode, Opened(steps));
    match run.exit {
      case Suspended =>
        assert w == ClientView(Connected, false, s.reconnectDelayMin, ns, v.transport);
        CountAroundRun(v.notifications, run.emitted, []);
        assert ns + [] == ns;
      case Broke(cause) =>
        var e := cause.GetOr(HttpRequestError(SuddenlyClosedMessage));
        assert w == ClientView(Exception, true, s.reconnectDelayMin, ns + [StreamException(e)], v.transport);
        CountAroundRun(v.notifications, run.emitted, [StreamException(e)]);
        CountOneException<T>(e);
      case LeftConnected =>
        assert w == ClientView(Disconnected, false, s.reconnectDelayMin, ns + [StreamDisconnected], v.transport + [CancelPendingRequests]);
        CountAroundRun(v.notifications, run.emitted, [StreamDisconnected]);
        var last: seq<Notification<T>> := [StreamDisconnected];
        assert last[1..] == [];
    }
  }

  /** A timer elapse outside Exception only resets and stops the timer; in
      Exception it starts exactly one new connection attempt. */
  lemma TimerElapseOpensAtMostOneStream<T>(v: ClientView<T>, url: string, s: Settings, decode: seq<byte> -> Option<T>, session: Session)
    ensures var w := AfterTimerElapse(v, url, s, decode, session);
      (!v.state.Exception? ==> w.state == v.state && w.notifications == v.notifications && w.transport == v.transport && !w.timerRunning)
      && (v.state.Exception? ==> |w.transport| > |v.transport| && w.transport[|v.transport|] == GetStream(url)
                                 && w.transport[..|v.transport|] == v.transport)
  {
  }

  /** Every transition keeps the interval within the backoff bound. */
  lemma TransitionsKeepBackoffBound<T>(v: ClientView<T>, url: string, s: Settings, decode: seq<byte> -> Option<T>, session: Session, wired: bool)
    requires WithinBackoffBound(s, v.timerInterval)
    ensures WithinBackoffBound(s, AfterConnect(v, url, s, decode, session).timerInterval)
    ensures WithinBackoffBound(s, AfterTimerElapse(v, url, s, decode, session).timerInterval)
    ensures WithinBackoffBound(s, AfterDisconnect(v, wired, s).timerInterval)
    ensures WithinBackoffBound(s, AfterDispose(v, s).timerInterval)
  {
  }

  /** Repeated timer elapses in which the stream cannot be opened. */
  function FailedReconnects<T>(v: ClientView<T>, url: string, s: Settings, decode: seq<byte> -> Option<T>, n: nat): (w: ClientView<T>) {
    if n == 0 then v else AfterTimerElapse(FailedReconnects(v, url, s, decode, n - 1), url, s, decode, OpenFailure)
  }

  /** After `n` consecutive failed reconnects from a freshly failed client
      the interval is IntervalAfter(s, n) and the client is still in
      Exception with the timer running. */
  lemma {:induction false} FailedReconnectsBackOff<T>(v: ClientView<T>, url: string, s: Settings, decode: seq<byte> -> Option<T>, n: nat)
    requires v.state.Exception? && v.timerInterval == s.reconnectDelayMin
    ensures var w := FailedReconnects(v, url, s, decode, n);
      w.state.Exception? && w.timerInterval == IntervalAfter(s, n) && (n > 0 ==> w.timerRunning)
  {
    if n > 0 {
      FailedReconnectsBackOff(v, url, s, decode, n - 1);
    }
  }

  /** A reconnect that opens the stream resets the interval to the minimum. */
  lemma SuccessfulReconnectResetsInterval<T>(v: ClientView<T>, url: string, s: Settings, decode: seq<byte> -> Option<T>, steps: seq<ReadStep>)
    requires v.state.Exception?
    requires ReadLoop(steps, decode).exit == Suspended
    ensures var w := AfterTimerElapse(v, url, s, decode, Opened(steps));
      w.state.Connected? && w.timerInterval == s.reconnectDelayMin && !w.timerRunning
  {
  }

  /** An attempt against an endpoint that closes at once: Connecting, then
      Connected, then Exception with the timer started at the minimum. */
  lemma ImmediatelyClosedStream<T>(v: ClientView<T>, url: string, s: Settings, decode: seq<byte> -> Option<T>)
    requires v.state.Disconnected?
    ensures var w := AfterConnect(v, url, s, decode, Opened([EndOfStream]));
      w.state.Exception? && w.timerRunning && w.timerInterval == s.reconnectDelayMin
      && w.notifications == v.notifications + [StreamConnected, StreamException(HttpRequestError(SuddenlyClosedMessage))]
      && w.transport == v.transport + [GetStream(url)]
  {
    assert ReadLoop<T>([EndOfStream], decode) == LoopRun([], Broke(None));
  }

  // ---------------------------------------------------------------------
  // The client object
  // ---------------------------------------------------------------------

  class StreamClient<T> {
    const url: string
    const settings: Settings
    /** MessagePackSerializer.Deserialize<T>; None when it throws. */
    const decode: seq<byte> -> Option<T>

    var state: ConnectionState
    var disposedValue: bool
    /** Whether the constructor's internal handlers are still registered. */
    var handlersWired: bool
    var timerRunning: bool
    var timerInterval: nat
    var notifications: seq<Notification<T>>
    var transport: seq<TransportCall>

    ghost function View(): (w: ClientView<T>)
      reads this
    {
      ClientView(state, timerRunning, timerInterval, notifications, transport)
    }

    /** Handlers stay wired until disposal; a disposed timer never runs; the
        interval keeps the backoff bound. */
    ghost predicate Valid()
      reads this
    {
      handlersWired == !disposedValue
      && (disposedValue ==> !timerRunning)
      && WithinBackoffBound(settings, timerInterval)
    }

    /** The timer is created with ReconnectDelayMin, and the Timer
        constructor throws ArgumentException for an interval outside
        1..Int32.MaxValue milliseconds, so no client exists for such settings. */
    constructor (url: string, settings: Settings, decode: seq<byte> -> Option<T>)
      requires 0 < settings.reconnectDelayMin <= MaxTimerIntervalMs
      ensures Valid() && !disposedValue
      ensures this.url == url && this.settings == settings && this.decode == decode
      ensures View() == ClientView(Disconnected, false, settings.reconnectDelayMin, [], [])
    {
      this.url := url;
      this.settings := settings;
      this.decode := decode;
      state := Disconnected;
      disposedValue := false;
      handlersWired := true;
      timerRunning := false;
      timerInterval := settings.reconnectDelayMin;
      notifications := [];
      transport := [];
    }

    /** Invokes one of the public events. */
    method Notify(n: Notification<T>)
      modifies this
      ensures View() == Notified(old(View()), n, handlersWired, settings)
      ensures state == old(state) && transport == old(transport) && notifications == old(notifications) + [n]
      ensures n.StreamHeartbeat? || n.StreamMessage? ==> timerRunning == old(timerRunning) && timerInterval == old(timerInterval)
      ensures disposedValue == old(disposedValue) && handlersWired == old(handlersWired)
    {
      notifications := notifications + [n];
      if handlersWired {
        match n
        case StreamConnected =>
          timerInterval := settings.reconnectDelayMin;
          timerRunning := false;
        case StreamDisconnected =>
          timerInterval := settings.reconnectDelayMin;
          timerRunning := false;
        case StreamException(_) =>
          timerRunning := true;
        case _ =>
      }
    }

    /** Disconnect (StreamClient.cs:277-288). */
    method Disconnect() returns (r: CallResult)
      modifies this
      ensures old(disposedValue) ==> r == ObjectDisposed && unchanged(this)
      ensures !old(disposedValue) ==> r == Completed && View() == AfterDisconnect(old(View()), handlersWired, settings)
      ensures !old(disposedValue) && old(state).Connected? && handlersWired ==>
        state.Disconnected? && notifications == old(notifications) + [StreamDisconnected]
        && transport == old(transport) + [CancelPendingRequests]
        && !timerRunning && timerInterval == settings.reconnectDelayMin
      ensures disposedValue == old(disposedValue) && handlersWired == old(handlersWired)
      ensures old(Valid()) ==> Valid()
    {
      if disposedValue {
        return ObjectDisposed;
      }
      r := Completed;
      if state.Disconnecting? || state.Disconnected? {
        return;
      }
      state := Disconnecting;
      transport := transport + [CancelPendingRequests];
      state := Disconnected;
      Notify(StreamDisconnected);
    }

    /** The synchronous part of Connect, up to the first await. */
    method BeginConnect() returns (r: CallResult, started: bool)
      requires Valid()
      modifies this
      ensures old(disposedValue) ==> r == ObjectDisposed && !started && unchanged(this)
      ensures !old(disposedValue) ==> r == Completed && started == !old(state).IsActive()
      ensures !old(disposedValue) && !started ==> unchanged(this)
      ensures started ==> View() == StartConnecting(old(View()), url) && disposedValue == old(disposedValue)
      ensures Valid()
    {
      if disposedValue {
        return ObjectDisposed, false;
      }
      r := Completed;
      if state.Connecting? || state.Connected? {
        return r, false;
      }
      started := true;
      state := Connecting;
      transport := transport + [GetStream(url)];
    }

    /** The rest of Connect: open the stream and run the read loop. */
    method FinishConnect(session: Session)
      requires Valid() && !disposedValue && state.Connecting?
      modifies this
      ensures View() == AfterSession(old(View()), settings, decode, session)
      ensures disposedValue == old(disposedValue) && Valid()
    {
      match session {
        case OpenFailure =>
          state := Exception;
          Notify(StreamException(OpenFailed));
        case Opened(steps) =>
          state := Connected;
          Notify(StreamConnected);
          var broke, cause := RunReadLoop(steps);
          if state.Connected? && broke {
            state := Exception;
            Notify(StreamException(cause.GetOr(HttpRequestError(SuddenlyClosedMessage))));
          }
      }
    }

    /** One pass of the read loop's body (StreamClient.cs:239-258): the
        notifications raised are those of ReadTurn, and the loop goes on
        exactly when it continues. */
    method ReadOne(step: ReadStep) returns (t: Turn<T>)
      requires handlersWired
      modifies this
      ensures t == ReadTurn(step, decode)
      ensures notifications == old(notifications) + (if t.Continue? then t.raised else [])
      ensures state == old(state) && transport == old(transport)
      ensures timerRunning == old(timerRunning) && timerInterval == old(timerInterval)
      ensures disposedValue == old(disposedValue) && handlersWired
    {
      match step {
        case EndOfStream =>
          t := Stop(Broke(None));
        case ReadError =>
          t := Stop(Broke(Some(ReadFailed)));
        case DisconnectCalled =>
          t := Stop(LeftConnected);
        case Frame(b) =>
          if |b| == 1 && b[0] == 0x90 {
            Notify(StreamHeartbeat);
            t := Continue([StreamHeartbeat]);
          } else {
            match decode(b) {
              case None =>
                t := Stop(Broke(Some(DecodeFailed)));
              case Some(data) =>
                Notify(StreamMessage(data));
                t := Continue([StreamMessage(data)]);
            }
          }
      }
    }

    /** The read loop, entered in Connected with the timer stopped: it raises
        exactly ReadLoop's notifications and reports how it ended. The
        owner's Disconnect ends the loop; nothing runs between the two. */
    method RunReadLoop(steps: seq<ReadStep>) returns (broke: bool, cause: Option<StreamError>)
      requires state.Connected? && handlersWired && !disposedValue
      requires !timerRunning && timerInterval == settings.reconnectDelayMin
      modifies this
      ensures disposedValue == old(disposedValue) && handlersWired
      ensures var run := ReadLoop(steps, decode);
        var c := old(View()).(notifications := old(notifications) + run.emitted);
        match run.exit
        case Suspended => !broke && View() == c
        case Broke(k) => broke && cause == k && View() == c
        case LeftConnected => !broke && View() == AfterDisconnect(c, true, settings)
    {
      ghost var n0 := notifications;
      ghost var emitted: seq<Notification<T>> := [];
      var exit := Suspended;
      var stopped := false;
      var i := 0;
      while !stopped && i < |steps|
        invariant 0 <= i <= |steps|
        invariant !disposedValue && handlersWired && state.Connected?
        invariant !timerRunning && timerInterval == settings.reconnectDelayMin
        invariant notifications == n0 + emitted && transport == old(transport)
        invariant !stopped ==> exit == Suspended
        invariant !stopped ==>
          ReadLoop(steps, decode) == LoopRun(emitted + ReadLoop(steps[i..], decode).emitted, ReadLoop(steps[i..], decode).exit)
        invariant stopped ==> ReadLoop(steps, decode) == LoopRun(emitted, exit)
        decreases |steps| - i
      {
        ghost var here := ReadLoop(steps[i..], decode);
        ghost var rest := ReadLoop(steps[i + 1..], decode);
        ReadLoopAt(steps, i, decode);
        var t := ReadOne(steps[i]);
        match t {
          case Stop(e) =>
            assert here == LoopRun([], e);
            assert emitted + [] == emitted;
            exit := e;
            stopped := true;
          case Continue(ns) =>
            assert here == LoopRun(ns + rest.emitted, rest.exit);
            ConcatAssociative(emitted, ns, rest.emitted);
            ConcatAssociative(n0, emitted, ns);
            emitted := emitted + ns;
        }
        i := i + 1;
      }
      if !stopped {
        assert steps[i..] == [];
      }
      broke := exit.Broke?;
      cause := if exit.Broke? then exit.cause else None;
      if exit.LeftConnected? {
        var _ := Disconnect();
      }
    }

    /** Connect (StreamClient.cs:220-271): rejected when disposed, a no-op
        while Connecting or Connected, otherwise one connection attempt. */
    method Connect(session: Session) returns (r: CallResult)
      requires Valid()
      modifies this
      ensures old(disposedValue) ==> r == ObjectDisposed && unchanged(this)
      ensures !old(disposedValue) ==> r == Completed && View() == AfterConnect(old(View()), url, settings, decode, session)
      ensures old(state).IsActive() ==> unchanged(this)
      ensures disposedValue == old(disposedValue) && Valid()
    {
      var started;
      r, started := BeginConnect();
      if started {
        FinishConnect(session);
      }
    }

    /** HandleReconnectTimerElapse (StreamClient.cs:170-187). */
    method HandleReconnectTimerElapse(session: Session)
      requires Valid() && !disposedValue
      modifies this
      ensures View() == AfterTimerElapse(old(View()), url, settings, decode, session)
      ensures disposedValue == old(disposedValue) && Valid()
    {
      if !state.Exception? {
        timerInterval := settings.reconnectDelayMin;
        timerRunning := false;
        return;
      }
      var _, started := BeginConnect();
      if timerInterval < settings.reconnectDelayMax {
        timerInterval := timerInterval + settings.reconnectDelayIncrement;
      }
      FinishConnect(session);
    }

    /** The timer's Elapsed event: it reaches the handler only while the
        handler is registered. */
    method TimerElapsed(session: Session)
      requires Valid()
      modifies this
      ensures disposedValue ==> unchanged(this)
      ensures !disposedValue ==> View() == AfterTimerElapse(old(View()), url, settings, decode, session)
      ensures disposedValue == old(disposedValue) && Valid()
    {
      if handlersWired {
        HandleReconnectTimerElapse(session);
      }
    }

    /** Dispose (StreamClient.cs:133-163): idempotent. */
    method Dispose()
      requires Valid()
      modifies this
      ensures old(disposedValue) ==> unchanged(this)
      ensures !old(disposedValue) ==> View() == AfterDispose(old(View()), settings)
      ensures disposedValue && !handlersWired && Valid()
    {
      if disposedValue {
        return;
      }
      handlersWired := false;
      timerRunning := false;
      var _ := Disconnect();
      transport := transport + [CancelPendingRequests, DisposeClient];
      disposedValue := true;
    }
  }
}
