/** How the router's requests fare at the specialists: the tasks built by
    agents/router_agent.py meet the request handling of
    agents/customer_data_agent.py and agents/support_agent.py. */
module Pipeline {
  import opened Wrappers
  import opened Json
  import opened Envelope
  import opened Connector
  import opened Dispatch
  import opened Router
  import DataAgent
  import SupportAgent

  /** Every task the router builds for the data specialist is answered with
      a `response` addressed back to the router: its payload always carries
      `customer_id`, so no intent handler can raise. */
  lemma DataTasksAreAnswered(intent: Value, customerId: Value, text: string, entities: Value, stamp: Stamp,
                             host: ToolCall -> ToolOutcome, parse: string -> Option<Value>, reply: Stamp)
    requires IsDataIntent(intent) && TaskPayload(intent, customerId, text, entities).Some?
    ensures BuildTask(intent, customerId, text, entities, stamp).Some?
    ensures var task := BuildTask(intent, customerId, text, entities, stamp).value;
            task.agent == Router.DataAgent &&
            DataAgent.HandleA2A(task.message, host, parse, reply)["type"] == Str("response") &&
            DataAgent.HandleA2A(task.message, host, parse, reply)["to"] == Str("router")
  {
    var task := BuildTask(intent, customerId, text, entities, stamp).value;
    DataAgent.CustomerPayloadIsAnswered(task.message, host, parse, reply);
  }

  /** A support task that asks for no escalation is answered with a
      `response` to the router: the router always sends the support
      specialist an object payload, and only an escalation can raise on one.
      (An intent that is itself a list is handled item by item.) */
  lemma SupportTasksAreAnswered(intent: Value, customerId: Value, text: string, entities: Value, stamp: Stamp,
                                host: ToolCall -> ToolOutcome, parse: string -> Option<Value>,
                                phrase: SupportAgent.Phrasing, reply: Stamp)
    requires !IsDataIntent(intent) && Str("escalate_issue") !in IntentList(intent)
    ensures BuildTask(intent, customerId, text, entities, stamp).Some?
    ensures var task := BuildTask(intent, customerId, text, entities, stamp).value;
            task.agent == Router.SupportAgent &&
            SupportAgent.HandleA2A(task.message, host, parse, phrase, reply)["type"] == Str("response") &&
            SupportAgent.HandleA2A(task.message, host, parse, phrase, reply)["to"] == Str("router")
  {
    var task := BuildTask(intent, customerId, text, entities, stamp).value;
    assert task.message["intent"] == intent;
    assert task.message["payload"].Obj?;
    SupportAgent.ObjectPayloadIsAnswered(task.message, host, parse, phrase, reply);
  }
}
