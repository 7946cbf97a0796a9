/** post_announcement: a non-blank announcement is broadcast to the
    announcement stream. */
module AnnouncementRoute {
  import opened Wrappers
  import opened Primitives
  import opened HttpTypes
  import opened Broadcast

  datatype AnnouncementKind = Informational | Maintenance | Critical | Miscellaneous

  datatype AnnouncementMessage = AnnouncementMessage(message: string, kind: AnnouncementKind, channel: Option<string>)

  /** message.trim().is_empty() */
  predicate IsBlank(payload: AnnouncementMessage) {
    Trim(payload.message) == []
  }

  /** The status for a payload, given the channel's receiver count: 400 for
      a blank message, 500 when no one is subscribed, otherwise 200. */
  function AnnouncementStatus(payload: AnnouncementMessage, receivers: nat): (status: nat)
    ensures status == BadRequest400 <==> AllWhiteSpace(payload.message)
    ensures status == InternalServerError500 <==> !AllWhiteSpace(payload.message) && receivers == 0
    ensures status == Ok200 <==> !AllWhiteSpace(payload.message) && receivers > 0
  {
    if IsBlank(payload) then BadRequest400
    else if SendOutcome(receivers, payload).NoReceivers? then InternalServerError500
    else Ok200
  }

  /** post_announcement: a blank message is refused before anything is
      sent; otherwise the payload is sent once, unchanged (its untrimmed
      text included), and the send result picks the status. */
  method PostAnnouncement(channel: Channel<AnnouncementMessage>, payload: AnnouncementMessage)
    returns (status: nat)
    modifies channel
    ensures status == AnnouncementStatus(payload, old(channel.receiverCount))
    ensures channel.receiverCount == old(channel.receiverCount)
    ensures channel.delivered == old(channel.delivered) + (if status == Ok200 then [payload] else [])
  {
    if Trim(payload.message) == [] {
      return BadRequest400;
    }
    var sent := channel.Send(payload);
    if sent.NoReceivers? {
      return InternalServerError500;
    }
    status := Ok200;
  }

  /** A 200 always means the message reached at least one subscriber, and
      nothing else does. */
  lemma OkMeansDelivered(payload: AnnouncementMessage, receivers: nat)
    ensures AnnouncementStatus(payload, receivers) == Ok200 <==> !IsBlank(payload) && SendOutcome(receivers, payload).Sent?
  {
  }
}
