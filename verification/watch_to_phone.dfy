/**
 * `WatchToPhone` (WatchConnectivity/WatchToPhone.swift): the watch-side session
 * delegate. It keeps the last flag array the phone pushed in `local`.
 */
module WatchToPhoneLink {
  import opened Outcomes
  import opened PeerMessage

  class WatchToPhone {
    /** The phone's last delivered flag array (`@Published var local`). */
    var local: seq<bool>
    /** Whether `WCSession.default.activate()` was requested for this delegate. */
    var activated: bool

    /** `init()`: activates the session only when the device supports WatchConnectivity. */
    constructor (sessionSupported: bool)
      ensures local == []
      ensures activated == sessionSupported
    {
      local := [];
      activated := sessionSupported;
    }

    /**
     * `session(_:didReceiveMessage:replyHandler:)`: a valid payload overwrites
     * `local` (no merge); anything else leaves it. Exactly one reply is returned.
     */
    method DidReceiveMessage(message: Message) returns (reply: Reply)
      modifies this`local
      ensures ContributionDays(message).Some? ==>
                local == message[ContributionDaysKey].flags && reply == Response("Data received")
      ensures ContributionDays(message).None? ==>
                local == old(local) && reply == ErrorReply("Data format not recognized")
      ensures |reply| == 1
    {
      match ContributionDays(message)
      case Some(data) =>
        local := data;
        reply := Response("Data received");
      case None =>
        reply := ErrorReply("Data format not recognized");
    }
  }
}
