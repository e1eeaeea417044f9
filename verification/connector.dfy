/** The connector's two transports, reduced to how they shape their results
    (agents/agent_client.py, class AgentConnector). The network and the
    tool-host subprocess are replaced by the outcome they produced. */
module Connector {
  import opened Wrappers
  import opened Text
  import opened Json
  import opened Envelope

  /** What the peer's HTTP response body decoded to. */
  datatype Body = Decoded(value: Value) | Undecodable(reason: string)

  /** What `requests.post` to a peer's `/a2a` route produced: an exception
      (connection refused, timeout, ...) or a response. */
  datatype PeerOutcome =
    | Unreachable(reason: string)
    | Responded(status: int, text: string, body: Body)

  /** `send_message`: errors are returned as `{"status": "error", "error": ...}`
      and never raised. An invalid envelope is refused before anything is
      sent; a 200 response yields its decoded body unchanged. */
  function SendMessage(message: Message, outcome: PeerOutcome): (r: Value)
    ensures CheckSchema(message).Invalid? ==>
              r == StatusError("error", SchemaErrorText(CheckSchema(message).missing))
    ensures CheckSchema(message).Valid? && outcome.Responded? && outcome.status == 200 && outcome.body.Decoded? ==>
              r == outcome.body.value
    ensures CheckSchema(message).Valid? && outcome.Responded? && outcome.status != 200 ==>
              r == StatusError("error", "HTTP " + IntToString(outcome.status) + ": " + outcome.text)
    ensures CheckSchema(message).Valid? && outcome.Unreachable? ==> r == StatusError("error", outcome.reason)
    ensures !(CheckSchema(message).Valid? && outcome.Responded? && outcome.status == 200 && outcome.body.Decoded?) ==>
              IsStatusError(r) && "error" in r.fields
  {
    match CheckSchema(message)
    case Invalid(missing) => StatusError("error", SchemaErrorText(missing))
    case Valid =>
      match outcome
      case Unreachable(reason) => StatusError("error", reason)
      case Responded(status, text, body) =>
        if status == 200 then
          match body
          case Decoded(v) => v
          case Undecodable(reason) => StatusError("error", reason)
        else StatusError("error", "HTTP " + IntToString(status) + ": " + text)
  }

  /** An invalid envelope is never sent: the result does not depend on what
      the network would have done. */
  lemma InvalidMessageNotSent(message: Message, o1: PeerOutcome, o2: PeerOutcome)
    requires CheckSchema(message).Invalid?
    ensures SendMessage(message, o1) == SendMessage(message, o2)
  {
  }

  /** A call to one named tool of the tool host with an argument object. */
  datatype ToolCall = ToolCall(tool: string, args: Value)

  /** What the tool-host session produced: an exception during process
      start, session set-up or the call, or the texts of the reply's
      content blocks. */
  datatype ToolOutcome = HostFailed(reason: string) | ToolReply(blocks: seq<string>)

  /** `invoke_tool`: the first content block's text, decoded as JSON when
      `parse` accepts it and as the raw text otherwise; a reply without
      content and any failure become `status: error` values. */
  function InvokeTool(outcome: ToolOutcome, parse: string -> Option<Value>): (r: Value)
    ensures outcome.ToolReply? && |outcome.blocks| > 0 ==>
              r == (match parse(outcome.blocks[0]) case Some(v) => v case None => Str(outcome.blocks[0]))
    ensures outcome.ToolReply? && |outcome.blocks| == 0 ==>
              r == StatusError("data", "No content returned from tool")
    ensures outcome.HostFailed? ==> r == StatusError("error", outcome.reason)
  {
    match outcome
    case HostFailed(reason) => StatusError("error", reason)
    case ToolReply(blocks) =>
      if |blocks| > 0 then
        match parse(blocks[0])
        case Some(v) => v
        case None => Str(blocks[0])
      else StatusError("data", "No content returned from tool")
  }

  /** Only the first content block matters: blocks after it never change the result. */
  lemma OnlyFirstBlockRead(b: string, rest1: seq<string>, rest2: seq<string>, parse: string -> Option<Value>)
    ensures InvokeTool(ToolReply([b] + rest1), parse) == InvokeTool(ToolReply([b] + rest2), parse)
  {
  }
}
