/** The customer data specialist (agents/customer_data_agent.py): each
    intent becomes one call to a tool of the tool host, whose reply is the
    intent's result. */
module DataAgent {
  import opened Wrappers
  import opened Text
  import opened Json
  import opened Envelope
  import opened Connector
  import opened Dispatch

  const Sender: string := "customer_data_agent"

  /** The intents this specialist serves. */
  const Served: set<string> := {"get_customer_info", "list_customers", "update_email", "update_customer", "get_customer_history"}

  /** `normalize_payload`: a payload holding `customer_id` is cut down to
      that key alone; any other payload is passed on unchanged. For a
      non-dictionary, Python's `in` test and subscript decide: a list or
      string that holds the key cannot be subscripted by it, and a scalar
      cannot be searched at all. */
  function NormalizePayload(p: Value): (r: Handled)
    ensures p.Obj? ==> r.Done? && r.value.Obj?
    ensures p.Obj? && "customer_id" in p.fields ==>
              r.value.fields.Keys == {"customer_id"} && r.value.fields["customer_id"] == p.fields["customer_id"]
    ensures p.Obj? && "customer_id" !in p.fields ==> r.value == p
    ensures p.Obj? ==> forall k :: k in r.value.fields ==> k in p.fields && r.value.fields[k] == p.fields[k]
    ensures !p.Obj? && r.Done? ==> r.value == p
    ensures p.Null? || p.Bool? || p.Num? ==> r.Raised?
  {
    match p
    case Obj(fields) =>
      if "customer_id" in fields then Done(Obj(map["customer_id" := fields["customer_id"]])) else Done(p)
    case Arr(items) =>
      if Str("customer_id") in items then Raised("list indices must be integers or slices, not str") else Done(p)
    case Str(s) =>
      if Contains(s, "customer_id") then Raised("string indices must be integers, not 'str'") else Done(p)
    case _ => Raised("argument of type '" + TypeName(p) + "' is not iterable")
  }

  /** Normalising twice is normalising once. */
  lemma NormalizeIdempotent(p: Value)
    requires NormalizePayload(p).Done?
    ensures NormalizePayload(NormalizePayload(p).value) == NormalizePayload(p)
  {
  }

  /** What one intent leads to: a tool call, an immediate answer, or an
      exception raised before any call is made. */
  datatype Plan = Call(call: ToolCall) | Answer(value: Value) | Fail(reason: string)

  /** The branch of `handle_customer_intent` taken for `intent`. */
  function PlanIntent(intent: Value, payload: Value): (p: Plan)
    ensures p.Answer? <==> !(intent.Str? && intent.s in Served)
    ensures p.Answer? ==> p.value == StatusError("data", "Unknown intent: " + Display(intent))
    ensures intent == Str("list_customers") ==> p == Call(ToolCall("list_customers", payload))
    ensures intent == Str("update_customer") ==> p == Call(ToolCall("update_customer", payload))
    ensures intent == Str("get_customer_info") && payload.Obj? ==>
              p.Call? && p.call.tool == "get_customer" && p.call.args == NormalizePayload(payload).value
    ensures intent == Str("get_customer_history") && payload.Obj? ==>
              p.Call? && p.call.tool == "get_customer_history" && p.call.args == NormalizePayload(payload).value
    ensures intent == Str("update_email") ==>
              (p.Call? <==> payload.Obj? && "customer_id" in payload.fields) &&
              (p.Call? ==> p.call == ToolCall("update_customer", Obj(map[
                              "customer_id" := payload.fields["customer_id"],
                              "data" := Get(payload.fields, "updates", Empty)])))
    ensures intent == Str("update_email") && payload.Obj? && "customer_id" !in payload.fields ==>
              p == Fail("'customer_id'")
    ensures p.Fail? ==> !payload.Obj? || (intent == Str("update_email") && "customer_id" !in payload.fields)
  {
    if intent == Str("get_customer_info") || intent == Str("get_customer_history") then
      var tool := if intent == Str("get_customer_info") then "get_customer" else "get_customer_history";
      match NormalizePayload(payload)
      case Done(args) => Call(ToolCall(tool, args))
      case Raised(reason) => Fail(reason)
    else if intent == Str("list_customers") || intent == Str("update_customer") then
      Call(ToolCall(intent.s, payload))
    else if intent == Str("update_email") then
      if !payload.Obj? then Fail(NoGetError(payload))
      else if "customer_id" !in payload.fields then Fail("'customer_id'")
      else
        Call(ToolCall("update_customer", Obj(map[
          "customer_id" := payload.fields["customer_id"],
          "data" := Get(payload.fields, "updates", Empty)])))
    else
      Answer(StatusError("data", "Unknown intent: " + Display(intent)))
  }

  /** `handle_customer_intent`, with the tool host's behaviour as `host`
      and JSON decoding as `parse`. */
  function HandleIntent(intent: Value, payload: Value, host: ToolCall -> ToolOutcome,
                        parse: string -> Option<Value>): (r: Handled)
    ensures r.Raised? <==> PlanIntent(intent, payload).Fail?
    ensures PlanIntent(intent, payload).Call? ==>
              r == Done(InvokeTool(host(PlanIntent(intent, payload).call), parse))
  {
    match PlanIntent(intent, payload)
    case Call(call) => Done(InvokeTool(host(call), parse))
    case Answer(v) => Done(v)
    case Fail(reason) => Raised(reason)
  }

  /** A tool-host failure is reported as a result, never raised: the only
      exceptions come from a malformed payload. */
  lemma HostFailureIsAnswered(intent: Value, payload: Value, host: ToolCall -> ToolOutcome,
                              parse: string -> Option<Value>)
    requires payload.Obj? && "customer_id" in payload.fields
    requires forall c :: host(c).HostFailed?
    ensures HandleIntent(intent, payload, host, parse).Done?
    ensures intent.Str? && intent.s in Served ==> IsStatusError(HandleIntent(intent, payload, host, parse).value)
  {
  }

  /** An intent this specialist does not serve is answered without
      consulting the tool host. */
  lemma UnknownIntentIgnoresHost(intent: Value, payload: Value, h1: ToolCall -> ToolOutcome, h2: ToolCall -> ToolOutcome,
                                 parse: string -> Option<Value>)
    requires !(intent.Str? && intent.s in Served)
    ensures HandleIntent(intent, payload, h1, parse) == HandleIntent(intent, payload, h2, parse)
    ensures HandleIntent(intent, payload, h1, parse).Done?
  {
  }

  /** `handle_a2a`: the shared request handling with this specialist's handler. */
  function HandleA2A(msg: Message, host: ToolCall -> ToolOutcome, parse: string -> Option<Value>, stamp: Stamp): (reply: Message)
    ensures CheckSchema(reply).Valid?
    ensures reply["type"] == Str("response") || reply["type"] == Str("error")
    ensures reply["type"] == Str("response") ==> reply["from"] == Str(Sender)
  {
    var handle := (i, p) => HandleIntent(i, p, host, parse);
    if CheckSchema(msg).Valid? && Batch(msg, handle).Ok? then
      SuccessReply(msg, Sender, handle, stamp);
      Respond(msg, Sender, handle, stamp)
    else
      Respond(msg, Sender, handle, stamp)
  }

  /** A valid request whose payload is an object carrying `customer_id`
      always gets a `response`, whatever the intents and the tool host do. */
  lemma CustomerPayloadIsAnswered(msg: Message, host: ToolCall -> ToolOutcome, parse: string -> Option<Value>, stamp: Stamp)
    requires CheckSchema(msg).Valid?
    requires msg["payload"].Obj? && "customer_id" in msg["payload"].fields
    ensures HandleA2A(msg, host, parse, stamp)["type"] == Str("response")
    ensures HandleA2A(msg, host, parse, stamp)["to"] == msg["from"]
  {
    var handle := (i, p) => HandleIntent(i, p, host, parse);
    forall i | i in IntentList(msg["intent"])
      ensures handle(i, msg["payload"]).Done?
    {
    }
    ResponseAnswersRequest(msg, Sender, handle, stamp);
  }
}
