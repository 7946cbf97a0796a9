/** The server's binary event stream: the event record, the message the
    broadcast channel carries, and the frames the stream handler sends. */
module EventStreamRoute {
  import opened Wrappers
  import opened Primitives
  import opened Streams
  import HttpStreamClient

  /** EventData as the stream declares it: a 32-byte hash and a 16-byte
      salt. Dafny sequences stand for the fixed-size arrays, so the sizes
      are a predicate. */
  datatype EventData = EventData(
    contentIdHash: seq<byte>, contentIdSalt: seq<byte>, loggedIn: bool, territoryId: u16, worldId: u16)
  {
    predicate HasDeclaredSizes() {
      |contentIdHash| == 32 && |contentIdSalt| == 16
    }
  }

  datatype SerializedEventData = SerializedEventData(bytes: seq<byte>)

  datatype EventStreamMessage = Data(data: SerializedEventData) | Shutdown

  /** SerializedEventData::new, with rmp_serde::to_vec as a parameter: the
      encoding is wrapped, or its error is passed on. */
  function NewSerializedEventData<E>(d: EventData, toVec: EventData -> Result<seq<byte>, E>)
    : (r: Result<SerializedEventData, E>)
    ensures r.Ok? <==> toVec(d).Ok?
    ensures r.Ok? ==> r.value.bytes == toVec(d).value
    ensures r.Err? ==> r.error == toVec(d).error
  {
    match toVec(d)
    case Ok(bytes) => Ok(SerializedEventData(bytes))
    case Err(e) => Err(e)
  }

  /** The heartbeat frame: an empty MessagePack array. */
  const HeartbeatData: seq<byte> := [0x90]

  /** What a BroadcastStream yields: a message, or the number of messages
      this receiver missed because it fell behind. */
  datatype RecvItem = Received(msg: EventStreamMessage) | Lagged(skipped: nat)

  /** One item of the merged stream: a heartbeat tick of the interval
      stream or an item of the broadcast stream. The order of a sequence of
      these is the interleaving `merge` happened to produce. */
  datatype Incoming = Tick | Recv(item: RecvItem)

  /** A frame and its is_shutdown flag. */
  datatype Tagged = Tagged(data: seq<byte>, isShutdown: bool)

  /** The filter_map closure of the broadcast stream: lag is dropped. */
  function EventItem(item: RecvItem): (r: Option<Tagged>)
    ensures item.Lagged? <==> r.None?
  {
    match item
    case Lagged(_) => None
    case Received(Data(d)) => Some(Tagged(d.bytes, false))
    case Received(Shutdown) => Some(Tagged([], true))
  }

  /** One item of the merged stream before take_while; a tick always gives
      a heartbeat. */
  function MergedItem(x: Incoming): (r: Option<Tagged>)
    ensures x.Tick? ==> r == Some(Tagged(HeartbeatData, false))
    ensures x.Recv? ==> r == EventItem(x.item)
  {
    match x
    case Tick => Some(Tagged(HeartbeatData, false))
    case Recv(item) => EventItem(item)
  }

  function NotShutdown(t: Tagged): (r: bool) { !t.isShutdown }

  function FrameData(t: Tagged): (r: seq<byte>) { t.data }

  /** event_stream_handler's body: the initial heartbeat chained before the
      merged streams, cut at the first shutdown, flags dropped. */
  function EventStreamBody(merged: seq<Incoming>): (body: seq<seq<byte>>)
    ensures |body| >= 1 && body[0] == HeartbeatData
  {
    var items := [Tagged(HeartbeatData, false)] + FilterMap(merged, MergedItem);
    var kept := TakeWhile(items, NotShutdown);
    assert kept[0] == items[0];
    Map(kept, FrameData)
  }

  /** An independent statement of the frames that follow the initial
      heartbeat: each tick is a heartbeat, each data message its bytes
      unchanged, lag is skipped and nothing is sent from a shutdown on. */
  function Frames(merged: seq<Incoming>): (r: seq<seq<byte>>) {
    if merged == [] then []
    else match merged[0]
      case Tick => [HeartbeatData] + Frames(merged[1..])
      case Recv(Lagged(_)) => Frames(merged[1..])
      case Recv(Received(Data(d))) => [d.bytes] + Frames(merged[1..])
      case Recv(Received(Shutdown)) => []
  }

  lemma {:induction false} PipelineIsFrames(merged: seq<Incoming>)
    ensures Map(TakeWhile(FilterMap(merged, MergedItem), NotShutdown), FrameData) == Frames(merged)
  {
    if merged != [] {
      PipelineIsFrames(merged[1..]);
      var rest := FilterMap(merged[1..], MergedItem);
      match MergedItem(merged[0])
      case None =>
      case Some(t) =>
        var s := [t] + rest;
        assert FilterMap(merged, MergedItem) == s;
        if NotShutdown(t) {
          assert s[1..] == rest;
          var k := TakeWhile(s, NotShutdown);
          assert k == [t] + TakeWhile(rest, NotShutdown);
          assert k[1..] == TakeWhile(rest, NotShutdown);
        }
    }
  }

  /** The body is the initial heartbeat followed by Frames. */
  lemma EventStreamBodyIsFrames(merged: seq<Incoming>)
    ensures EventStreamBody(merged) == [HeartbeatData] + Frames(merged)
  {
    PipelineIsFrames(merged);
    var items := [Tagged(HeartbeatData, false)] + FilterMap(merged, MergedItem);
    assert items[1..] == FilterMap(merged, MergedItem);
    var kept := TakeWhile(items, NotShutdown);
    assert kept[1..] == TakeWhile(FilterMap(merged, MergedItem), NotShutdown);
    assert kept == [kept[0]] + kept[1..];
  }

  predicate IsShutdown(x: Incoming) {
    x == Recv(Received(Shutdown))
  }

  /** Before any shutdown the frames of two parts of the stream concatenate. */
  lemma {:induction false} FramesAppend(a: seq<Incoming>, b: seq<Incoming>)
    requires forall i :: 0 <= i < |a| ==> !IsShutdown(a[i])
    ensures Frames(a + b) == Frames(a) + Frames(b)
  {
    if a == [] {
      assert a + b == b;
    } else {
      assert (a + b)[0] == a[0];
      assert (a + b)[1..] == a[1..] + b;
      FramesAppend(a[1..], b);
    }
  }

  /** Nothing is sent after a shutdown message, whatever follows it. */
  lemma {:induction false} NothingAfterShutdown(a: seq<Incoming>, b: seq<Incoming>)
    requires forall i :: 0 <= i < |a| ==> !IsShutdown(a[i])
    ensures Frames(a + [Recv(Received(Shutdown))] + b) == Frames(a)
  {
    var s := [Recv(Received(Shutdown))] + b;
    assert a + [Recv(Received(Shutdown))] + b == a + s;
    FramesAppend(a, s);
    assert s[0] == Recv(Received(Shutdown));
    assert Frames(s) == [];
  }

  /** A lag notice produces no frame. */
  lemma LagIsDropped(a: seq<Incoming>, n: nat, b: seq<Incoming>)
    requires forall i :: 0 <= i < |a| ==> !IsShutdown(a[i])
    ensures Frames(a + [Recv(Lagged(n))] + b) == Frames(a + b)
  {
    var s := [Recv(Lagged(n))] + b;
    assert a + [Recv(Lagged(n))] + b == a + s;
    FramesAppend(a, s);
    FramesAppend(a, b);
    assert s[1..] == b;
  }

  function DataItems(ds: seq<SerializedEventData>): (r: seq<Incoming>)
    ensures |r| == |ds| && forall i :: 0 <= i < |ds| ==> r[i] == Recv(Received(Data(ds[i])))
  {
    seq(|ds|, i requires 0 <= i < |ds| => Recv(Received(Data(ds[i]))))
  }

  /** Data messages go out in the order they were broadcast, their bytes
      unchanged. */
  lemma {:induction false} DataFramesInOrder(ds: seq<SerializedEventData>)
    ensures Frames(DataItems(ds)) == seq(|ds|, i requires 0 <= i < |ds| => ds[i].bytes)
  {
    if ds != [] {
      assert DataItems(ds)[1..] == DataItems(ds[1..]);
      DataFramesInOrder(ds[1..]);
    }
  }

  /** Every frame is a heartbeat or the bytes of a data message of the
      stream. */
  lemma {:induction false} FramesComeFromStream(merged: seq<Incoming>)
    ensures forall f :: f in Frames(merged) ==>
      f == HeartbeatData || exists d :: Recv(Received(Data(d))) in merged && d.bytes == f
  {
    if merged != [] {
      FramesComeFromStream(merged[1..]);
      forall d | Recv(Received(Data(d))) in merged[1..] ensures Recv(Received(Data(d))) in merged {
      }
    }
  }

  /** The client's read loop takes the first frame of the stream for a
      heartbeat, whatever its decoder. */
  lemma ClientSeesHeartbeatFirst<T>(merged: seq<Incoming>, decode: seq<byte> -> Option<T>)
    ensures var body := EventStreamBody(merged);
      var steps := seq(|body|, i requires 0 <= i < |body| => HttpStreamClient.Frame(body[i]));
      var run := HttpStreamClient.ReadLoop(steps, decode);
      |run.emitted| >= 1 && run.emitted[0] == HttpStreamClient.StreamHeartbeat
  {
    var body := EventStreamBody(merged);
    var steps := seq(|body|, i requires 0 <= i < |body| => HttpStreamClient.Frame(body[i]));
    assert steps[0] == HttpStreamClient.Frame(HttpStreamClient.HeartbeatMarker);
  }
}
