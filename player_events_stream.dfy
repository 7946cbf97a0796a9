/** player_events_sse_handler: the player events stream, each broadcast
    update re-encoded as MessagePack. */
module PlayerEventsStreamRoute {
  import opened Wrappers
  import opened Primitives
  import opened Streams
  import opened LoginStateRoute

  /** What the broadcast receiver yields: an update, or a lag notice. */
  datatype RecvResult = Received(update: PlayerEventStreamUpdate) | Lagged(skipped: nat)

  /** The filter_map closure, over rmp_serde::to_vec as a parameter: an
      update that fails to encode is dropped, as is a lag notice. */
  function Encoder(toVec: PlayerEventStreamUpdate -> Option<seq<byte>>): (f: RecvResult -> Option<seq<byte>>)
    ensures forall x :: f(x) == (if x.Received? then toVec(x.update) else None)
  {
    (x: RecvResult) => if x.Received? then toVec(x.update) else None
  }

  /** The response body. */
  function PlayerEventsBody(items: seq<RecvResult>, toVec: PlayerEventStreamUpdate -> Option<seq<byte>>)
    : (body: seq<seq<byte>>)
    ensures |body| <= |items|
  {
    FilterMap(items, Encoder(toVec))
  }

  /** The body of a longer run of the receiver extends the body of its
      prefix: frames are sent as updates arrive. */
  lemma BodyAppend(a: seq<RecvResult>, b: seq<RecvResult>, toVec: PlayerEventStreamUpdate -> Option<seq<byte>>)
    ensures PlayerEventsBody(a + b, toVec) == PlayerEventsBody(a, toVec) + PlayerEventsBody(b, toVec)
  {
    FilterMapAppend(a, b, Encoder(toVec));
  }

  /** Every frame encodes an update that was broadcast, and every update
      that encodes is sent. */
  lemma BodyMembers(items: seq<RecvResult>, toVec: PlayerEventStreamUpdate -> Option<seq<byte>>)
    ensures forall f :: f in PlayerEventsBody(items, toVec) ==>
      exists u :: Received(u) in items && toVec(u) == Some(f)
    ensures forall u :: Received(u) in items && toVec(u).Some? ==> toVec(u).value in PlayerEventsBody(items, toVec)
  {
    var f := Encoder(toVec);
    FilterMapMembers(items, f);
    forall y | y in PlayerEventsBody(items, toVec) ensures exists u :: Received(u) in items && toVec(u) == Some(y) {
      var x :| x in items && f(x) == Some(y);
      assert Received(x.update) in items;
    }
    forall u | Received(u) in items && toVec(u).Some? ensures toVec(u).value in PlayerEventsBody(items, toVec) {
      assert f(Received(u)) == toVec(u);
    }
  }

  /** Without lag or encoding failures, the body is the updates' encodings
      in broadcast order. */
  lemma BodyInOrder(us: seq<PlayerEventStreamUpdate>, toVec: PlayerEventStreamUpdate -> Option<seq<byte>>)
    requires forall i :: 0 <= i < |us| ==> toVec(us[i]).Some?
    ensures var items := seq(|us|, i requires 0 <= i < |us| => Received(us[i]));
      PlayerEventsBody(items, toVec) == seq(|us|, i requires 0 <= i < |us| => toVec(us[i]).value)
  {
    var items := seq(|us|, i requires 0 <= i < |us| => Received(us[i]));
    FilterMapTotal(items, Encoder(toVec));
  }
}
