/**
 * The dictionary-shaped messages that phone and watch exchange over
 * WatchConnectivity: a request `{"contributionDays": [Bool]}` and a one-key
 * reply `{"Response": text}` or `{"Error": text}`.
 */
module PeerMessage {
  import opened Outcomes

  /** A dictionary value (`Any`): a boolean array or anything else. */
  datatype Value = BoolArray(flags: seq<bool>) | Other(description: string)

  type Message = map<string, Value>
  type Reply = map<string, string>

  const ContributionDaysKey: string := "contributionDays"

  /** The request that carries a flag array: `["contributionDays": data]`; the receiving side accepts it unchanged. */
  function Payload(data: seq<bool>): (m: Message)
    ensures m.Keys == {ContributionDaysKey}
    ensures m[ContributionDaysKey] == BoolArray(data)
    ensures ContributionDays(m) == Some(data)
  {
    map[ContributionDaysKey := BoolArray(data)]
  }

  /** `message["contributionDays"] as? [Bool]`: the carried array, if the message has one. */
  function ContributionDays(message: Message): (r: Option<seq<bool>>)
    ensures r.Some? <==> ContributionDaysKey in message && message[ContributionDaysKey].BoolArray?
    ensures r.Some? ==> r.value == message[ContributionDaysKey].flags
  {
    if ContributionDaysKey in message then
      match message[ContributionDaysKey]
      case BoolArray(flags) => Some(flags)
      case Other(_) => None
    else None
  }

  /** A successful reply `["Response": text]`. */
  function Response(text: string): (r: Reply)
    ensures r.Keys == {"Response"} && r["Response"] == text
  {
    map["Response" := text]
  }

  /** A rejecting reply `["Error": text]`. */
  function ErrorReply(text: string): (r: Reply)
    ensures r.Keys == {"Error"} && r["Error"] == text
  {
    map["Error" := text]
  }
}
