/** What the client needs of the `requests` library: requests with a verb, a
    URL, an optional JSON body and a timeout; replies; the error a failed
    exchange raises; and a transport that answers each request in turn. The
    network is an oracle: a `Transport` is given, up front, the replies it
    will hand out, and keeps a ghost log of every request it was sent. */
module Http {
  import opened Wrappers

  /** A JSON value, as far as the client's bodies and the device's status
      reply need one (numbers are integers). */
  datatype Json =
    | JNull
    | JBool(b: bool)
    | JInt(n: int)
    | JStr(s: string)
    | JArr(items: seq<Json>)
    | JObj(members: seq<(string, Json)>)

  /** The value stored under `key` in a JSON object's member list. */
  function Member(members: seq<(string, Json)>, key: string): (v: Option<Json>)
    ensures v.Some? <==> exists i :: 0 <= i < |members| && members[i].0 == key
    ensures v.Some? ==> (key, v.value) in members
  {
    if members == [] then None
    else if members[0].0 == key then Some(members[0].1)
    else Member(members[1..], key)
  }

  datatype Verb = Get | Post

  datatype Request = Request(verb: Verb, url: string, body: Option<Json>, timeout: real)

  /** The outcome of one exchange: no answer at all (connection refused,
      timeout, any network-layer failure), or an HTTP answer with its status,
      its text and, when the text parses as JSON, the parsed value. */
  datatype Reply =
    | NoAnswer
    | Answer(status: int, text: string, json: Option<Json>)

  datatype Error =
    | TransportError              // the exchange itself failed
    | HttpError(status: int)      // raised by raise_for_status
    | DecodeError                 // the body is not JSON

  datatype Result<+T> = Ok(value: T) | Err(error: Error)

  /** `Response.raise_for_status()` of requests: 4xx and 5xx statuses raise,
      every other status passes; a reply that never came raises its own error. */
  function RaiseForStatus(reply: Reply): (raised: Option<Error>)
    ensures raised == None <==> reply.Answer? && !(400 <= reply.status < 600)
    ensures raised.Some? && reply.Answer? ==> raised.value == HttpError(reply.status)
    ensures reply.NoAnswer? ==> raised == Some(TransportError)
  {
    match reply
    case NoAnswer => Some(TransportError)
    case Answer(status, _, _) => if 400 <= status < 600 then Some(HttpError(status)) else None
  }

  /** The reply the network gives to the next request; once the script is
      used up, every further request fails. */
  function NextReply(script: seq<Reply>): Reply
  {
    if script == [] then NoAnswer else script[0]
  }

  function AfterNext(script: seq<Reply>): seq<Reply>
  {
    if script == [] then [] else script[1..]
  }

  class Transport {
    /** The replies still to come, in order. */
    var script: seq<Reply>
    /** Every request sent so far, oldest first. */
    ghost var log: seq<Request>

    constructor (replies: seq<Reply>)
      ensures script == replies && log == []
    {
      script := replies;
      log := [];
    }

    /** One exchange: the request is logged and the next scripted reply returned. */
    method Send(req: Request) returns (reply: Reply)
      modifies this
      ensures reply == NextReply(old(script))
      ensures script == AfterNext(old(script))
      ensures log == old(log) + [req]
    {
      if script == [] {
        reply := NoAnswer;
      } else {
        reply := script[0];
        script := script[1..];
      }
      log := log + [req];
    }
  }
}
