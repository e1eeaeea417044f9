/** The request handling shared by both specialist agents
    (agents/customer_data_agent.py `handle_a2a`, agents/support_agent.py
    `a2a_handler`): validate the envelope, run the handler once per intent,
    and answer with one result per intent or with an error envelope. */
module Dispatch {
  import opened Wrappers
  import opened Json
  import opened Envelope

  /** How one intent handler finished: with a value, or by raising. */
  datatype Handled = Done(value: Value) | Raised(reason: string)

  /** A single intent is treated as a one-element list. */
  function IntentList(v: Value): (r: seq<Value>)
    ensures v.Arr? ==> r == v.items
    ensures !v.Arr? ==> |r| == 1 && r[0] == v
  {
    if v.Arr? then v.items else [v]
  }

  /** The handlers of all intents, in intent order. `gather` without
      `return_exceptions` propagates an exception: the first raising handler
      (in intent order here) fails the whole batch. */
  function RunAll(intents: seq<Value>, run: Value -> Handled): (r: Result<seq<Value>>)
    ensures r.Ok? ==> |r.value| == |intents|
    ensures r.Ok? ==> forall i :: 0 <= i < |intents| ==> run(intents[i]) == Done(r.value[i])
    ensures r.Err? ==> exists i :: (0 <= i < |intents| && run(intents[i]) == Raised(r.error) &&
              forall j :: 0 <= j < i ==> run(intents[j]).Done?)
    decreases |intents|
  {
    if intents == [] then Ok([])
    else
      match run(intents[0])
      case Raised(reason) => Err(reason)
      case Done(v) =>
        var rest := RunAll(intents[1..], run);
        if rest.Err? then
          RunAllTailFails(intents, run, rest.error);
          Err(rest.error)
        else
          var r := [v] + rest.value;
          assert forall i :: 1 <= i < |intents| ==> r[i] == rest.value[i - 1] && intents[i] == intents[1..][i - 1];
          Ok(r)
  }

  lemma RunAllTailFails(intents: seq<Value>, run: Value -> Handled, reason: string)
    requires |intents| > 0 && run(intents[0]).Done?
    requires exists i :: (0 <= i < |intents| - 1 && run(intents[1..][i]) == Raised(reason) &&
               forall j :: 0 <= j < i ==> run(intents[1..][j]).Done?)
    ensures exists i :: (0 <= i < |intents| && run(intents[i]) == Raised(reason) &&
              forall j :: 0 <= j < i ==> run(intents[j]).Done?)
  {
    var i :| 0 <= i < |intents| - 1 && run(intents[1..][i]) == Raised(reason) &&
             forall j :: 0 <= j < i ==> run(intents[1..][j]).Done?;
    assert run(intents[i + 1]) == Raised(reason);
    forall j | 0 <= j < i + 1
      ensures run(intents[j]).Done?
    {
      if j > 0 {
        assert intents[j] == intents[1..][j - 1];
      }
    }
  }

  /** The results of running `handle` on every intent of a valid request. */
  function Batch(msg: Message, handle: (Value, Value) -> Handled): Result<seq<Value>>
    requires CheckSchema(msg).Valid?
  {
    RunAll(IntentList(msg["intent"]), i => handle(i, msg["payload"]))
  }

  /** A batch fails as soon as one intent's handler raises. */
  lemma {:induction false} RunAllRaises(intents: seq<Value>, run: Value -> Handled, k: nat)
    requires k < |intents| && run(intents[k]).Raised?
    ensures RunAll(intents, run).Err?
    decreases k
  {
    if run(intents[0]).Done? {
      assert intents[1..][k - 1] == intents[k];
      RunAllRaises(intents[1..], run, k - 1);
    }
  }

  /** The `/a2a` route of a specialist called `sender`, where `handle(intent,
      payload)` is its intent handler. An invalid envelope, or an intent whose
      handler raises, is answered by the error envelope naming the failure;
      otherwise the answer is a `response` to the requester carrying one
      result per intent under the request's correlation id. */
  function Respond(msg: Message, sender: string, handle: (Value, Value) -> Handled, stamp: Stamp): (reply: Message)
    ensures CheckSchema(reply).Valid?
    ensures CheckSchema(msg).Invalid? ==>
              reply == ErrorResponse(msg, SchemaErrorText(CheckSchema(msg).missing), stamp)
    ensures CheckSchema(msg).Valid? && Batch(msg, handle).Err? ==>
              reply == ErrorResponse(msg, Batch(msg, handle).error, stamp)
    ensures CheckSchema(msg).Valid? && Batch(msg, handle).Ok? ==> reply["type"] == Str("response")
  {
    if CheckSchema(msg).Invalid? then ErrorResponse(msg, SchemaErrorText(CheckSchema(msg).missing), stamp)
    else if Batch(msg, handle).Err? then ErrorResponse(msg, Batch(msg, handle).error, stamp)
    else
      CreateMessage(Str(sender), msg["from"], Arr(IntentList(msg["intent"])), Arr(Batch(msg, handle).value),
                    "response", msg["correlation_id"], stamp)
  }

  /** A successful batch is answered to the requester, from the specialist,
      with the request's intents in order, one result per intent (`{}` when
      there were none) and the request's correlation id when it had one. */
  lemma SuccessReply(msg: Message, sender: string, handle: (Value, Value) -> Handled, stamp: Stamp)
    requires CheckSchema(msg).Valid? && Batch(msg, handle).Ok?
    ensures var reply := Respond(msg, sender, handle, stamp);
            reply["from"] == Str(sender) && reply["to"] == msg["from"] &&
            reply["intent"] == Arr(IntentList(msg["intent"])) &&
            |Batch(msg, handle).value| == |IntentList(msg["intent"])| &&
            reply["payload"] == (if Batch(msg, handle).value == [] then Empty else Arr(Batch(msg, handle).value)) &&
            (Truthy(msg["correlation_id"]) ==> reply["correlation_id"] == msg["correlation_id"])
  {
  }

  /** All or nothing: when any intent's handler raises, the reply is an
      error envelope and carries none of the other intents' results. */
  lemma OneFailureFailsAll(msg: Message, sender: string, handle: (Value, Value) -> Handled, stamp: Stamp, k: nat)
    requires CheckSchema(msg).Valid?
    requires k < |IntentList(msg["intent"])|
    requires handle(IntentList(msg["intent"])[k], msg["payload"]).Raised?
    ensures Respond(msg, sender, handle, stamp)["type"] == Str("error")
    ensures Respond(msg, sender, handle, stamp)["payload"].Obj?
    ensures "error" in Respond(msg, sender, handle, stamp)["payload"].fields
  {
    RunAllRaises(IntentList(msg["intent"]), i => handle(i, msg["payload"]), k);
  }

  /** The reply of a successful batch answers the request it was given: it
      goes back to the requester, names the specialist as sender, and keeps
      the request's intents in order. */
  lemma ResponseAnswersRequest(msg: Message, sender: string, handle: (Value, Value) -> Handled, stamp: Stamp)
    requires CheckSchema(msg).Valid?
    requires forall i :: i in IntentList(msg["intent"]) ==> handle(i, msg["payload"]).Done?
    ensures Respond(msg, sender, handle, stamp)["type"] == Str("response")
    ensures Respond(msg, sender, handle, stamp)["to"] == msg["from"]
    ensures Respond(msg, sender, handle, stamp)["intent"] == Arr(IntentList(msg["intent"]))
  {
    AllDoneRuns(IntentList(msg["intent"]), i => handle(i, msg["payload"]));
    SuccessReply(msg, sender, handle, stamp);
  }

  /** A batch whose handlers all return succeeds. */
  lemma {:induction false} AllDoneRuns(intents: seq<Value>, run: Value -> Handled)
    requires forall i :: i in intents ==> run(i).Done?
    ensures RunAll(intents, run).Ok?
    decreases |intents|
  {
    if intents != [] {
      assert intents[0] in intents;
      forall i | i in intents[1..]
        ensures run(i).Done?
      {
        assert i in intents;
      }
      AllDoneRuns(intents[1..], run);
    }
  }
}
