/** A tokio::sync::broadcast sender, seen from the handlers that send on
    it: what has been delivered to the receivers, and how many there are. */
module Broadcast {

  /** broadcast::Sender::send: the number of receivers, or the value back
      when there are none. */
  datatype SendResult<T> = Sent(receivers: nat) | NoReceivers(value: T)

  function SendOutcome<T>(receivers: nat, m: T): (r: SendResult<T>)
    ensures r.Sent? <==> receivers > 0
    ensures r.Sent? ==> r.receivers == receivers
    ensures r.NoReceivers? ==> r.value == m
  {
    if receivers > 0 then Sent(receivers) else NoReceivers(m)
  }

  class Channel<T> {
    /** Every message the receivers have been given, oldest first. */
    var delivered: seq<T>
    var receiverCount: nat

    constructor (receivers: nat)
      ensures delivered == [] && receiverCount == receivers
    {
      delivered := [];
      receiverCount := receivers;
    }

    /** Sender::subscribe. */
    method Subscribe()
      modifies this
      ensures receiverCount == old(receiverCount) + 1 && delivered == old(delivered)
    {
      receiverCount := receiverCount + 1;
    }

    /** Sender::send: a message reaches the receivers only when there are
        some; otherwise it is handed back and nothing is recorded. */
    method Send(m: T) returns (r: SendResult<T>)
      modifies this
      ensures r == SendOutcome(old(receiverCount), m)
      ensures receiverCount == old(receiverCount)
      ensures delivered == old(delivered) + (if r.Sent? then [m] else [])
    {
      if receiverCount > 0 {
        delivered := delivered + [m];
        r := Sent(receiverCount);
      } else {
        r := NoReceivers(m);
      }
    }
  }
}
