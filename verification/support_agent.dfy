/** The support specialist (agents/support_agent.py): static answers for
    the account requests, ticket look-up and escalation through the tool
    host, and a chat sentence added to every answer. */
module SupportAgent {
  import opened Wrappers
  import opened Text
  import opened Json
  import opened Envelope
  import opened Connector
  import opened Dispatch

  const Sender: string := "support_agent"

  /** The language model's phrasing of an action: `phrase(action, details,
      text)` is the text `query_llm` returned, `None` when it returned none. */
  type Phrasing = (string, Value, Value) -> Option<string>

  /** `generate_polite_response`: the model's sentence, or a fixed
      sentence naming the action when the model gave nothing or an empty text. */
  function Polite(action: string, reply: Option<string>): (r: string)
    ensures reply.Some? && reply.value != [] ==> r == reply.value
    ensures reply.None? || reply.value == [] ==> r == "Action processed: " + action
    ensures |r| > 0
  {
    match reply
    case Some(text) => if text == [] then "Action processed: " + action else text
    case None => "Action processed: " + action
  }

  /** Adding the chat sentence to an intent's data: a list is wrapped as
      `data` beside `answer_text`, a dictionary gains (or has replaced) its
      `answer_text` key, and anything else is returned untouched. */
  function Decorate(action: string, data: Value, text: Value, phrase: Phrasing): (r: Value)
    ensures data.Arr? ==> r.Obj? && r.fields.Keys == {"data", "answer_text"} && r.fields["data"] == data
    ensures data.Obj? ==> r.Obj? && r.fields.Keys == data.fields.Keys + {"answer_text"}
    ensures data.Obj? ==> forall k :: k in data.fields && k != "answer_text" ==> r.fields[k] == data.fields[k]
    ensures data.Arr? || data.Obj? ==> r.fields["answer_text"] == Str(Polite(action, phrase(action, data, text)))
    ensures !data.Arr? && !data.Obj? ==> r == data
  {
    var sentence := Str(Polite(action, phrase(action, data, text)));
    match data
    case Arr(_) => Obj(map["data" := data, "answer_text" := sentence])
    case Obj(fields) => Obj(fields["answer_text" := sentence])
    case _ => data
  }

  /** The four requests answered without any tool: the logged action and
      the answer data. */
  function StaticAnswer(intent: Value): (r: Option<(string, Value)>)
    ensures r.Some? <==> intent in {Str("support_request"), Str("refund_request"), Str("cancel_subscription"), Str("upgrade_request")}
    ensures r.Some? ==> r.value.1.Obj? && "status" in r.value.1.fields && r.value.1.fields["status"] == Str("ok")
    ensures r.Some? && intent == Str("refund_request") ==> r.value.1.fields.Keys == {"status", "refund_id"}
    ensures r.Some? && intent != Str("refund_request") ==> r.value.1.fields.Keys == {"status"}
  {
    var ok := map["status" := Str("ok")];
    if intent == Str("support_request") then Some(("General inquiry logged.", Obj(ok)))
    else if intent == Str("refund_request") then Some(("Refund initiated successfully.", Obj(ok["refund_id" := Str("REF-998877")])))
    else if intent == Str("cancel_subscription") then Some(("Subscription cancelled.", Obj(ok)))
    else if intent == Str("upgrade_request") then Some(("Upgrade processed.", Obj(ok)))
    else None
  }

  /** The action logged after a ticket look-up. */
  function TicketsFound(tickets: Value): (action: string)
    ensures tickets.Arr? && |tickets.items| > 0 ==>
              action == "Found " + NatToString(|tickets.items|) + " tickets."
    ensures !(tickets.Arr? && |tickets.items| > 0) ==> action == "No tickets found."
  {
    if tickets.Arr? && |tickets.items| > 0 then "Found " + NatToString(|tickets.items|) + " tickets."
    else "No tickets found."
  }

  /** The ticket look-up call for one customer: only that customer's
      tickets, with no status or priority filter. */
  function TicketLookup(customerId: Value): (c: ToolCall)
    ensures c.tool == "list_tickets" && c.args.Obj?
    ensures "customer_ids" in c.args.fields && c.args.fields["customer_ids"] == Arr([customerId])
    ensures "status" !in c.args.fields && "priority" !in c.args.fields
  {
    ToolCall("list_tickets", Obj(map["customer_ids" := Arr([customerId])]))
  }

  /** The escalation call: a medium-priority ticket for the customer, whose
      issue is the reason given. */
  function EscalationCall(customerId: Value, reason: Value): (c: ToolCall)
    ensures c.tool == "create_ticket" && c.args.Obj?
    ensures At(c.args, "customer_id") == customerId && At(c.args, "issue") == reason
    ensures At(c.args, "priority") == Str("medium")
  {
    ToolCall("create_ticket", Obj(map["customer_id" := customerId, "issue" := reason, "priority" := Str("medium")]))
  }

  /** `handle_support_intent`, with the tool host as `host`, JSON decoding
      as `parse` and the language model as `phrase`. */
  function HandleIntent(intent: Value, payload: Value, host: ToolCall -> ToolOutcome,
                        parse: string -> Option<Value>, phrase: Phrasing): (r: Handled)
    ensures !payload.Obj? ==> r == Raised(NoGetError(payload))
    ensures payload.Obj? && StaticAnswer(intent).Some? ==>
              r == Done(Decorate(StaticAnswer(intent).value.0, StaticAnswer(intent).value.1,
                                 Get(payload.fields, "text", Str("")), phrase))
    ensures payload.Obj? && intent == Str("show_ticket_status") && !Truthy(Get(payload.fields, "customer_id", Null)) ==>
              r == Done(StatusError("error", "Missing customer_id"))
    ensures payload.Obj? && intent == Str("show_ticket_status") && Truthy(Get(payload.fields, "customer_id", Null)) ==>
              var tickets := InvokeTool(host(TicketLookup(payload.fields["customer_id"])), parse);
              r == Done(Decorate(TicketsFound(tickets), tickets, Get(payload.fields, "text", Str("")), phrase))
    ensures payload.Obj? && intent == Str("escalate_issue") ==>
              var entities := Get(payload.fields, "entities", Empty);
              (!entities.Obj? ==> r == Raised(NoGetError(entities)))
    ensures r.Raised? ==> !payload.Obj? || intent == Str("escalate_issue")
    ensures payload.Obj? && StaticAnswer(intent).None? && intent != Str("show_ticket_status") && intent != Str("escalate_issue") ==>
              r == Done(StatusError("error", "Unknown intent: " + Display(intent)))
  {
    if !payload.Obj? then Raised(NoGetError(payload))
    else
      var customerId := Get(payload.fields, "customer_id", Null);
      var text := Get(payload.fields, "text", Str(""));
      var entities := Get(payload.fields, "entities", Empty);
      match StaticAnswer(intent)
      case Some((action, data)) => Done(Decorate(action, data, text, phrase))
      case None =>
        if intent == Str("show_ticket_status") then
          if !Truthy(customerId) then Done(StatusError("error", "Missing customer_id"))
          else
            var tickets := InvokeTool(host(TicketLookup(customerId)), parse);
            Done(Decorate(TicketsFound(tickets), tickets, text, phrase))
        else if intent == Str("escalate_issue") then
          if !entities.Obj? then Raised(NoGetError(entities))
          else
            var reason := Or(Get(entities.fields, "reason", Null), text);
            var ticket := InvokeTool(host(EscalationCall(customerId, reason)), parse);
            if !ticket.Obj? then Raised(NoGetError(ticket))
            else
              var action := "Escalation Ticket #" + Display(Get(ticket.fields, "id", Str("unknown"))) + " created.";
              Done(Decorate(action, ticket, text, phrase))
        else Done(StatusError("error", "Unknown intent: " + Display(intent)))
  }

  /** Escalation files one medium-priority ticket about the `reason`
      entity, or the customer's own text when it is falsy, and answers with
      the ticket the tool host created. The chat sentence is the model's, or
      else names the new ticket: `Action processed: Escalation Ticket #<id>
      created.` */
  lemma EscalationFilesTicket(customerId: Value, text: Value, entities: map<string, Value>, ticket: map<string, Value>,
                              host: ToolCall -> ToolOutcome, parse: string -> Option<Value>, phrase: Phrasing)
    requires var reason := Or(Get(entities, "reason", Null), text);
             InvokeTool(host(EscalationCall(customerId, reason)), parse) == Obj(ticket)
    ensures var payload := Obj(map["customer_id" := customerId, "text" := text, "entities" := Obj(entities)]);
            var r := HandleIntent(Str("escalate_issue"), payload, host, parse, phrase);
            r.Done? && r.value.Obj? &&
            (forall k :: k in ticket && k != "answer_text" ==> k in r.value.fields && r.value.fields[k] == ticket[k]) &&
            "answer_text" in r.value.fields
    ensures var payload := Obj(map["customer_id" := customerId, "text" := text, "entities" := Obj(entities)]);
            var r := HandleIntent(Str("escalate_issue"), payload, host, parse, phrase);
            var action := "Escalation Ticket #" + Display(Get(ticket, "id", Str("unknown"))) + " created.";
            r.Done? && r.value.Obj? && "answer_text" in r.value.fields &&
            (phrase(action, Obj(ticket), text).None? ==> r.value.fields["answer_text"] == Str("Action processed: " + action)) &&
            (phrase(action, Obj(ticket), text).Some? && phrase(action, Obj(ticket), text).value != [] ==>
               r.value.fields["answer_text"] == Str(phrase(action, Obj(ticket), text).value))
  {
    var payload := Obj(map["customer_id" := customerId, "text" := text, "entities" := Obj(entities)]);
    assert Get(payload.fields, "entities", Empty) == Obj(entities);
    assert Get(payload.fields, "customer_id", Null) == customerId;
    assert Get(payload.fields, "text", Str("")) == text;
  }

  /** Requests that need no tool are answered the same whatever the tool
      host would do. */
  lemma NoToolIntentsIgnoreHost(intent: Value, payload: Value, h1: ToolCall -> ToolOutcome, h2: ToolCall -> ToolOutcome,
                                parse: string -> Option<Value>, phrase: Phrasing)
    requires intent != Str("escalate_issue")
    requires intent != Str("show_ticket_status") || !payload.Obj? || !Truthy(Get(payload.fields, "customer_id", Null))
    ensures HandleIntent(intent, payload, h1, parse, phrase) == HandleIntent(intent, payload, h2, parse, phrase)
  {
  }

  /** Every answer to a known request carries a non-empty chat sentence
      when its data is a list or a dictionary. */
  lemma AnswersAreVoiced(intent: Value, payload: Value, host: ToolCall -> ToolOutcome,
                         parse: string -> Option<Value>, phrase: Phrasing)
    requires payload.Obj? && StaticAnswer(intent).Some?
    ensures var r := HandleIntent(intent, payload, host, parse, phrase);
            r.Done? && r.value.Obj? && "answer_text" in r.value.fields &&
            r.value.fields["answer_text"].Str? && |r.value.fields["answer_text"].s| > 0
  {
  }

  /** `a2a_handler`: the shared request handling with this specialist's handler. */
  function HandleA2A(msg: Message, host: ToolCall -> ToolOutcome, parse: string -> Option<Value>,
                     phrase: Phrasing, stamp: Stamp): (reply: Message)
    ensures CheckSchema(reply).Valid?
    ensures reply["type"] == Str("response") || reply["type"] == Str("error")
    ensures reply["type"] == Str("response") ==> reply["from"] == Str(Sender)
  {
    var handle := (i, p) => HandleIntent(i, p, host, parse, phrase);
    if CheckSchema(msg).Valid? && Batch(msg, handle).Ok? then
      SuccessReply(msg, Sender, handle, stamp);
      Respond(msg, Sender, handle, stamp)
    else
      Respond(msg, Sender, handle, stamp)
  }

  /** A valid request with an object payload that asks for no escalation
      always gets a `response`, whatever the tool host does. */
  lemma ObjectPayloadIsAnswered(msg: Message, host: ToolCall -> ToolOutcome, parse: string -> Option<Value>,
                                phrase: Phrasing, stamp: Stamp)
    requires CheckSchema(msg).Valid?
    requires msg["payload"].Obj? && Str("escalate_issue") !in IntentList(msg["intent"])
    ensures HandleA2A(msg, host, parse, phrase, stamp)["type"] == Str("response")
    ensures HandleA2A(msg, host, parse, phrase, stamp)["to"] == msg["from"]
  {
    var handle := (i, p) => HandleIntent(i, p, host, parse, phrase);
    forall i | i in IntentList(msg["intent"])
      ensures handle(i, msg["payload"]).Done?
    {
    }
    ResponseAnswersRequest(msg, Sender, handle, stamp);
  }
}
