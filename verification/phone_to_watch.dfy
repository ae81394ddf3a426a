/**
 * `PhoneToWatch` (WatchConnectivity/PhoneToWatch.swift): the phone-side session
 * delegate. Reachability is read from the session at call time and is passed
 * in; messages handed to the transport are appended to `outbox`, and what the
 * transport then reports (the peer's reply or an error) is a parameter.
 */
module PhoneToWatchLink {
  import opened Outcomes
  import opened PeerMessage
  import opened SharedStore

  /** Why `sendMessageAsync` throws. */
  datatype SendError = NotReachable | TransportError(reason: string)

  class PhoneToWatch {
    /** Declared by the source and never written by it. */
    var local: seq<bool>
    /** Whether the session's activation was requested and not since undone by a deactivation. */
    var activated: bool
    /** The messages handed to `session.sendMessage`, oldest first. */
    var outbox: seq<Message>

    constructor (sessionSupported: bool)
      ensures local == [] && outbox == []
      ensures activated == sessionSupported
    {
      local := [];
      outbox := [];
      activated := sessionSupported;
    }

    /** `sessionDidDeactivate(_:)`: the deactivated session is re-activated at once. */
    method SessionDidDeactivate()
      modifies this`activated
      ensures activated
    {
      activated := true;
    }

    /**
     * `sendMessageAsync(data:)`: when unreachable, throws `notReachable` and
     * sends nothing; otherwise sends the payload and returns either the peer's
     * reply or the transport's error, exactly one of the two.
     */
    method SendMessageAsync(data: seq<bool>, isReachable: bool, delivery: Result<Reply, string>)
      returns (r: Result<Reply, SendError>)
      modifies this`outbox
      ensures !isReachable ==> r == Err(NotReachable) && outbox == old(outbox)
      ensures isReachable ==> outbox == old(outbox) + [Payload(data)]
      ensures isReachable && delivery.Ok? ==> r == Ok(delivery.value)
      ensures isReachable && delivery.Err? ==> r == Err(TransportError(delivery.error))
    {
      if !isReachable {
        return Err(NotReachable);
      }
      outbox := outbox + [Payload(data)];
      match delivery
      case Ok(reply) => r := Ok(reply);
      case Err(e) => r := Err(TransportError(e));
    }

    /** `send(data:)`: fire-and-forget; nothing is sent when the peer is unreachable. */
    method Send(data: seq<bool>, isReachable: bool)
      modifies this`outbox
      ensures outbox == if isReachable then old(outbox) + [Payload(data)] else old(outbox)
    {
      if !isReachable {
        return;
      }
      outbox := outbox + [Payload(data)];
    }
  }

  /**
   * The free function `session(_:didReceiveMessage:replyHandler:)`: a valid
   * payload overwrites `Store.shared.local`; anything else is answered with an error.
   * It is declared at file scope, outside `PhoneToWatch`, so it is not a
   * delegate method and WatchConnectivity never calls it: as written, the phone
   * has no live receive path, and nothing in this model calls it either.
   */
  method SessionDidReceiveMessage(store: Store, message: Message) returns (reply: Reply)
    modifies store`local
    ensures ContributionDays(message).Some? ==>
              store.local == message[ContributionDaysKey].flags && reply == Response("Got it!")
    ensures ContributionDays(message).None? ==>
              store.local == old(store.local) && reply == ErrorReply("Data format not recognized")
    ensures |reply| == 1
  {
    match ContributionDays(message)
    case Some(data) =>
      store.local := data;
      reply := Response("Got it!");
    case None =>
      reply := ErrorReply("Data format not recognized");
  }
}
