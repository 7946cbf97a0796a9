/** send_event_handler: a binary login-state event is copied into an
    EventData record, serialised and broadcast to the event stream. */
module EventRoute {
  import opened Wrappers
  import opened Primitives
  import opened HttpTypes
  import opened Broadcast
  import opened EventStreamRoute

  /** The request body this handler declares: a 32-byte hash, but an
      8-byte salt and a 16-bit world id. */
  datatype UpdatePlayerLoginStateRequest = UpdatePlayerLoginStateRequest(
    contentIdHash: seq<byte>, contentIdSalt: seq<byte>, loggedIn: bool, territoryId: u16, worldId: u16)
  {
    predicate HasDeclaredSizes() {
      |contentIdHash| == 32 && |contentIdSalt| == 8
    }
  }

  /** The EventData the handler builds: every field copied unchanged. */
  function ToEventData(u: UpdatePlayerLoginStateRequest): (d: EventData)
    ensures d.contentIdHash == u.contentIdHash && d.contentIdSalt == u.contentIdSalt
    ensures d.loggedIn == u.loggedIn && d.territoryId == u.territoryId && d.worldId == u.worldId
  {
    EventData(u.contentIdHash, u.contentIdSalt, u.loggedIn, u.territoryId, u.worldId)
  }

  /** The two declarations disagree: a salt of the request's declared size
      never has the size EventData declares for it. */
  lemma CopiedSaltOffDeclaredSize(u: UpdatePlayerLoginStateRequest)
    requires u.HasDeclaredSizes()
    ensures !ToEventData(u).HasDeclaredSizes()
  {
  }

  /** The message the handler broadcasts, or the serialisation error that
      makes it answer 500 instead. */
  function EventMessage<E>(u: UpdatePlayerLoginStateRequest, toVec: EventData -> Result<seq<byte>, E>)
    : (r: Result<EventStreamMessage, E>)
    ensures r.Ok? <==> toVec(ToEventData(u)).Ok?
    ensures r.Ok? ==> r.value == Data(SerializedEventData(toVec(ToEventData(u)).value))
  {
    match NewSerializedEventData(ToEventData(u), toVec)
    case Ok(data) => Ok(Data(data))
    case Err(e) => Err(e)
  }

  /** The status: 202 once the message is handed to the channel, whether or
      not anyone receives it; 500 only when serialisation fails. */
  function EventStatus<E>(u: UpdatePlayerLoginStateRequest, toVec: EventData -> Result<seq<byte>, E>)
    : (status: nat)
    ensures status == Accepted202 || status == InternalServerError500
    ensures status == Accepted202 <==> EventMessage(u, toVec).Ok?
  {
    if EventMessage(u, toVec).Ok? then Accepted202 else InternalServerError500
  }

  /** send_event_handler: on a serialisation error nothing is sent; otherwise
      the data message is sent once and the send result is ignored. */
  method SendEventHandler<E>(channel: Channel<EventStreamMessage>, u: UpdatePlayerLoginStateRequest,
                             toVec: EventData -> Result<seq<byte>, E>)
    returns (status: nat)
    modifies channel
    ensures status == EventStatus(u, toVec)
    ensures channel.receiverCount == old(channel.receiverCount)
    ensures channel.delivered == old(channel.delivered) +
      (if EventMessage(u, toVec).Ok? && old(channel.receiverCount) > 0 then [EventMessage(u, toVec).value] else [])
  {
    var message := EventMessage(u, toVec);
    if message.Err? {
      return InternalServerError500;
    }
    var _ := channel.Send(message.value);
    status := Accepted202;
  }

  /** A served event appears on the event stream as the bytes the
      serialiser produced, after the initial heartbeat. */
  lemma BroadcastEventReachesStream<E>(u: UpdatePlayerLoginStateRequest, toVec: EventData -> Result<seq<byte>, E>)
    requires EventMessage(u, toVec).Ok?
    ensures EventStreamBody([Recv(Received(EventMessage(u, toVec).value))])
      == [HeartbeatData, toVec(ToEventData(u)).value]
  {
    var m := [Recv(Received(EventMessage(u, toVec).value))];
    EventStreamBodyIsFrames(m);
    assert m[1..] == [];
  }
}
