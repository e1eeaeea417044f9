/** The orchestrator (agents/router_agent.py): the keyword fallback of the
    classifier, the intent-to-task routing table with its escalation flags,
    and the unwrapping and ordered aggregation of the specialists' replies. */
module Router {
  import opened Wrappers
  import opened Text
  import opened Json
  import opened Envelope
  import opened Connector

  /** The two specialist agents a task can be routed to. */
  datatype Specialist = DataAgent | SupportAgent

  /** The recipient id written into the outbound envelope. */
  function AgentName(s: Specialist): string {
    match s
    case DataAgent => "customer_data_agent"
    case SupportAgent => "support_agent"
  }

  /** The intents served by the data specialist. */
  const DataIntents: seq<string> := ["get_customer_info", "get_customer_history", "update_email", "list_customers"]

  /** The support intents whose results are flagged for escalation. */
  const EscalatingSupportIntents: seq<string> := ["refund_request", "cancel_subscription", "upgrade_request", "escalate_issue"]

  /** Every intent the classifier's instructions allow. */
  const KnownIntents: set<string> := {
    "get_customer_info", "get_customer_history", "update_email", "list_customers",
    "refund_request", "cancel_subscription", "upgrade_request", "show_ticket_status",
    "escalate_issue", "support_request" }

  /** The intents flagged for escalation, stated as one set independently of
      the routing branches that set the flag. */
  const EscalatingIntents: set<string> := {
    "update_email", "refund_request", "cancel_subscription", "upgrade_request", "escalate_issue" }

  predicate IsDataIntent(intent: Value) {
    intent.Str? && intent.s in DataIntents
  }

  predicate IsEscalating(intent: Value) {
    intent.Str? && intent.s in EscalatingIntents
  }

  // ---------------------------------------------------------------------
  // Classification
  // ---------------------------------------------------------------------

  /** One keyword rule of the fallback: it fires when the lower-cased text
      contains every word of at least one of its alternatives. */
  datatype Rule = Rule(intent: string, alternatives: seq<seq<string>>)

  predicate ContainsAll(t: string, words: seq<string>) {
    words == [] || (Contains(t, words[0]) && ContainsAll(t, words[1..]))
  }

  predicate AnyAlternative(t: string, alternatives: seq<seq<string>>) {
    |alternatives| > 0 && (ContainsAll(t, alternatives[0]) || AnyAlternative(t, alternatives[1..]))
  }

  predicate Fires(r: Rule, t: string) {
    AnyAlternative(t, r.alternatives)
  }

  /** The fallback's rules, in the order they are tried. */
  const Rules: seq<Rule> := [
    Rule("refund_request", [["refund"], ["money back"]]),
    Rule("cancel_subscription", [["cancel"]]),
    Rule("list_customers", [["active", "customers"]]),
    Rule("update_email", [["email", "update"]]),
    Rule("get_customer_history", [["history"]]),
    Rule("show_ticket_status", [["ticket"]])
  ]

  /** The index of the first rule that fires, if any. */
  function FirstFiring(rules: seq<Rule>, t: string): (r: Option<nat>)
    ensures r.Some? ==> r.value < |rules| && Fires(rules[r.value], t)
    ensures r.Some? ==> forall j :: 0 <= j < r.value ==> !Fires(rules[j], t)
    ensures r.None? ==> forall j :: 0 <= j < |rules| ==> !Fires(rules[j], t)
  {
    if rules == [] then None
    else if Fires(rules[0], t) then Some(0)
    else match FirstFiring(rules[1..], t)
      case None => None
      case Some(k) => Some(k + 1)
  }

  /** The keyword fallback used when the oracle gives no usable answer. */
  function FallbackIntent(text: string): (r: string)
    ensures r in KnownIntents
  {
    var t := Lower(text);
    if Contains(t, "refund") || Contains(t, "money back") then "refund_request"
    else if Contains(t, "cancel") then "cancel_subscription"
    else if Contains(t, "active") && Contains(t, "customers") then "list_customers"
    else if Contains(t, "email") && Contains(t, "update") then "update_email"
    else if Contains(t, "history") then "get_customer_history"
    else if Contains(t, "ticket") then "show_ticket_status"
    else "support_request"
  }

  /** What each rule of the table tests, in terms of the lower-cased text. */
  lemma RuleMeanings(t: string)
    ensures Fires(Rules[0], t) <==> Contains(t, "refund") || Contains(t, "money back")
    ensures Fires(Rules[1], t) <==> Contains(t, "cancel")
    ensures Fires(Rules[2], t) <==> Contains(t, "active") && Contains(t, "customers")
    ensures Fires(Rules[3], t) <==> Contains(t, "email") && Contains(t, "update")
    ensures Fires(Rules[4], t) <==> Contains(t, "history")
    ensures Fires(Rules[5], t) <==> Contains(t, "ticket")
  {
    AnyTwo(t, ["refund"], ["money back"]);
    ContainsOne(t, "refund");
    ContainsOne(t, "money back");
    AnyOne(t, ["cancel"]);
    ContainsOne(t, "cancel");
    AnyOne(t, ["active", "customers"]);
    ContainsTwo(t, "active", "customers");
    AnyOne(t, ["email", "update"]);
    ContainsTwo(t, "email", "update");
    AnyOne(t, ["history"]);
    ContainsOne(t, "history");
    AnyOne(t, ["ticket"]);
    ContainsOne(t, "ticket");
  }

  /** The fallback picks the intent of the first rule that fires on the
      lower-cased text, and `support_request` when none does. */
  lemma FallbackIsFirstFiringRule(text: string)
    ensures FirstFiring(Rules, Lower(text)).Some? ==>
              FallbackIntent(text) == Rules[FirstFiring(Rules, Lower(text)).value].intent
    ensures FirstFiring(Rules, Lower(text)).None? ==> FallbackIntent(text) == "support_request"
  {
    var t := Lower(text);
    RuleMeanings(t);
    var f := FirstFiring(Rules, t);
    if f.None? {
      assert |Rules| == 6;
      assert !Fires(Rules[0], t) && !Fires(Rules[1], t) && !Fires(Rules[2], t);
      assert !Fires(Rules[3], t) && !Fires(Rules[4], t) && !Fires(Rules[5], t);
    }
  }

  lemma ContainsOne(t: string, w: string)
    ensures ContainsAll(t, [w]) <==> Contains(t, w)
  {
    assert [w][1..] == [];
  }

  lemma ContainsTwo(t: string, a: string, b: string)
    ensures ContainsAll(t, [a, b]) <==> Contains(t, a) && Contains(t, b)
  {
    assert [a, b][1..] == [b];
    ContainsOne(t, b);
  }

  lemma AnyOne(t: string, a: seq<string>)
    ensures AnyAlternative(t, [a]) <==> ContainsAll(t, a)
  {
    assert [a][1..] == [];
  }

  lemma AnyTwo(t: string, a: seq<string>, b: seq<string>)
    ensures AnyAlternative(t, [a, b]) <==> ContainsAll(t, a) || ContainsAll(t, b)
  {
    assert [a, b][1..] == [b];
    AnyOne(t, b);
  }

  /** The fallback does not depend on letter case. */
  lemma FallbackIgnoresCase(a: string, b: string)
    requires Lower(a) == Lower(b)
    ensures FallbackIntent(a) == FallbackIntent(b)
  {
  }

  /** The classifier's answer: the intents and entities, as the oracle sent them. */
  datatype Classification = Classification(intents: Value, entities: Value)

  /** A usable oracle answer is a non-empty JSON object. */
  predicate IsUsableReply(reply: Option<Value>) {
    reply.Some? && reply.value.Obj? && Truthy(reply.value)
  }

  /** `classify_intents_with_llm` given the oracle's answer: a non-empty
      object is used as it is, with `intents` defaulting to `[]` and
      `entities` to `{}`; anything else falls back to exactly one keyword
      intent with no entities. */
  function Classify(reply: Option<Value>, text: string): (c: Classification)
    ensures IsUsableReply(reply) ==>
              c.intents == Get(reply.value.fields, "intents", Arr([])) &&
              c.entities == Get(reply.value.fields, "entities", Empty)
    ensures !IsUsableReply(reply) ==>
              c.intents.Arr? && |c.intents.items| == 1 && c.intents.items[0] == Str(FallbackIntent(text)) &&
              c.entities == Empty
  {
    if IsUsableReply(reply) then
      Classification(Get(reply.value.fields, "intents", Arr([])), Get(reply.value.fields, "entities", Empty))
    else
      Classification(Arr([Str(FallbackIntent(text))]), Empty)
  }

  // ---------------------------------------------------------------------
  // Routing
  // ---------------------------------------------------------------------

  /** `payload["status"]` of a listing task: the `status_filter` entity, else
      `"active"` when the text mentions it, lower-cased when truthy. `None`
      stands for the `AttributeError` of lower-casing a non-string. */
  function StatusFilter(entities: map<string, Value>, text: string): (r: Option<Value>)
    ensures r.Some? && Truthy(r.value) ==> r.value.Str? && forall i :: 0 <= i < |r.value.s| ==> !IsUpper(r.value.s[i])
    ensures "status_filter" in entities && entities["status_filter"].Str? && Truthy(entities["status_filter"]) ==>
              r == Some(Str(Lower(entities["status_filter"].s)))
    ensures !Truthy(Get(entities, "status_filter", Null)) && Contains(Lower(text), "active") ==> r == Some(Str("active"))
    ensures !Truthy(Get(entities, "status_filter", Null)) && !Contains(Lower(text), "active") ==>
              r == Some(Get(entities, "status_filter", Null))
    ensures r.None? <==> Truthy(Get(entities, "status_filter", Null)) && !Get(entities, "status_filter", Null).Str?
  {
    var s0 := Get(entities, "status_filter", Null);
    var s1 := if !Truthy(s0) && Contains(Lower(text), "active") then Str("active") else s0;
    assert Lower("active") == "active";
    if !Truthy(s1) then Some(s1)
    else if s1.Str? then LowerIdempotent(s1.s); Some(Str(Lower(s1.s)))
    else None
  }

  /** The characters of `[\w.-]` as this model admits them: ASCII letters,
      digits, `_`, `.` and `-`. Python's `\w` also matches non-ASCII letters
      and digits; those are outside the model. Neither `@` nor white space
      is in the class, so a run of it stops at both. */
  function IsEmailChar(c: char): (b: bool)
    ensures b ==> c != '@' && !IsSpace(c)
    ensures c == '_' || c == '.' || c == '-' ==> b
  {
    ('a' <= c <= 'z') || ('A' <= c <= 'Z') || ('0' <= c <= '9') || c == '_' || c == '.' || c == '-'
  }

  /** The end of the longest run of `[\w.-]` characters starting at `i`. */
  function RunEnd(s: string, i: nat): (j: nat)
    requires i <= |s|
    ensures i <= j <= |s|
    ensures forall k :: i <= k < j ==> IsEmailChar(s[k])
    ensures j < |s| ==> !IsEmailChar(s[j])
    decreases |s| - i
  {
    if i < |s| && IsEmailChar(s[i]) then RunEnd(s, i + 1) else i
  }

  /** `[\w.-]+@[\w.-]+` matches at `i`: some non-empty run of the class,
      then `@`, then one more character of the class. Both runs are greedy
      and `@` is not in the class, so the check looks only past the maximal
      first run. */
  function EmailMatchAt(s: string, i: nat): (b: bool)
    ensures b <==> exists j :: AtSplit(s, i, j)
  {
    SplitStartsRun(s, i);
    if i < |s| && IsEmailChar(s[i]) then
      var j := RunEnd(s, i);
      var b := j + 1 < |s| && s[j] == '@' && IsEmailChar(s[j + 1]);
      SplitIsRunEnd(s, i);
      assert b ==> AtSplit(s, i, j);
      b
    else
      false
  }

  /** The pattern read with its `@` at `j`: a non-empty run of the class
      from `i` to `j`, the `@`, and one character of the class after it. */
  ghost predicate AtSplit(s: string, i: nat, j: int) {
    i < j < |s| - 1 && (forall k :: i <= k < j ==> IsEmailChar(s[k])) && s[j] == '@' && IsEmailChar(s[j + 1])
  }

  /** The only possible `@` position is the end of the maximal run. */
  lemma SplitIsRunEnd(s: string, i: nat)
    requires i < |s|
    ensures forall j :: AtSplit(s, i, j) ==> j == RunEnd(s, i)
  {
  }

  /** A match starts with a character of the class. */
  lemma SplitStartsRun(s: string, i: nat)
    ensures (exists j :: AtSplit(s, i, j)) ==> i < |s| && IsEmailChar(s[i])
  {
    if exists j :: AtSplit(s, i, j) {
      var j :| AtSplit(s, i, j);
      assert i <= i < j;
    }
  }

  /** The text of the match at `i`: a run of the class, `@`, and a run of
      the class, extending as far as the class does. */
  function EmailAt(s: string, i: nat): (e: string)
    requires EmailMatchAt(s, i)
    ensures e <= s[i..] && (i + |e| == |s| || !IsEmailChar(s[i + |e|]))
    ensures exists j :: 0 < j < |e| - 1 && e[j] == '@' &&
                        forall k :: 0 <= k < |e| && k != j ==> IsEmailChar(e[k])
  {
    var j := RunEnd(s, i);
    var end := RunEnd(s, j + 1);
    var e := s[i..end];
    assert e[j - i] == '@';
    assert forall k :: 0 <= k < |e| && k != j - i ==> IsEmailChar(e[k]) by {
      forall k | 0 <= k < |e| && k != j - i ensures IsEmailChar(e[k]) {
        assert e[k] == s[i + k];
      }
    }
    e
  }

  /** The leftmost match start at or after `from`. */
  function FindEmailStart(s: string, from: nat): (r: Option<nat>)
    ensures r.Some? ==> from <= r.value && EmailMatchAt(s, r.value)
    ensures r.Some? ==> forall k :: from <= k < r.value ==> !EmailMatchAt(s, k)
    ensures r.None? ==> forall k :: from <= k ==> !EmailMatchAt(s, k)
    decreases |s| - from
  {
    if from >= |s| then None
    else if EmailMatchAt(s, from) then Some(from)
    else FindEmailStart(s, from + 1)
  }

  /** `re.search(r'[\w\.-]+@[\w\.-]+', text)`: the match at the leftmost
      position where the pattern matches, or nothing when it matches
      nowhere. */
  function SearchEmail(text: string): (r: Option<string>)
    ensures r.None? <==> forall k: nat :: !EmailMatchAt(text, k)
    ensures r.Some? ==> exists i: nat :: EmailMatchAt(text, i) && r.value == EmailAt(text, i) &&
                                         forall k: nat :: k < i ==> !EmailMatchAt(text, k)
  {
    match FindEmailStart(text, 0)
    case None => None
    case Some(i) => Some(EmailAt(text, i))
  }

  /** `payload["updates"]` of an email-update task: the `email` entity when
      truthy, else the first email-shaped token of the text, else `{}`. */
  function EmailUpdates(entities: map<string, Value>, text: string): (r: Value)
    ensures Truthy(Get(entities, "email", Null)) ==> r == Obj(map["email" := entities["email"]])
    ensures !Truthy(Get(entities, "email", Null)) && SearchEmail(text).Some? ==>
              r == Obj(map["email" := Str(SearchEmail(text).value)])
    ensures !Truthy(Get(entities, "email", Null)) && SearchEmail(text).None? ==> r == Empty
  {
    var e := Get(entities, "email", Null);
    var found := if Truthy(e) then e else match SearchEmail(text) case Some(m) => Str(m) case None => e;
    if Truthy(found) then Obj(map["email" := found]) else Empty
  }

  /** One outbound request per intent. */
  datatype Task = Task(agent: Specialist, message: Message, intent: Value, escalate: bool)

  function MakeTask(agent: Specialist, intent: Value, payload: map<string, Value>, escalate: bool, stamp: Stamp): (t: Task)
    requires "customer_id" in payload
    ensures t.agent == agent && t.intent == intent && t.escalate == escalate
    ensures CheckSchema(t.message).Valid?
    ensures t.message["from"] == Str("router") && t.message["to"] == Str(AgentName(agent))
    ensures t.message["intent"] == intent && t.message["type"] == Str("request")
    ensures t.message["payload"] == Obj(payload)
  {
    Task(agent, CreateMessage(Str("router"), Str(AgentName(agent)), intent, Obj(payload), "request", Null, stamp), intent, escalate)
  }

  /** The specialist an intent is routed to. */
  function RouteOf(intent: Value): (r: Specialist)
    ensures r == DataAgent <==> intent.Str? && intent.s in DataIntents
    ensures r == SupportAgent <==> !(intent.Str? && intent.s in DataIntents)
  {
    if IsDataIntent(intent) then DataAgent else SupportAgent
  }

  /** The escalation flag as `build_agent_task` sets it branch by branch: on
      the email update, and for four of the support intents. */
  function EscalationFlag(intent: Value): (b: bool)
    ensures b <==> IsEscalating(intent)
  {
    if IsDataIntent(intent) then intent == Str("update_email")
    else intent.Str? && intent.s in EscalatingSupportIntents
  }

  /** The payload of the outbound request. `None` stands for the
      `AttributeError` raised when a listing or email-update intent meets
      non-object entities or a non-string status filter. */
  function TaskPayload(intent: Value, customerId: Value, text: string, entities: Value): (r: Option<map<string, Value>>)
    ensures r.Some? ==> "customer_id" in r.value && r.value["customer_id"] == customerId
    ensures !IsDataIntent(intent) ==>
              r == Some(map["customer_id" := customerId, "text" := Str(text), "entities" := entities])
    ensures IsDataIntent(intent) && intent != Str("list_customers") && intent != Str("update_email") ==>
              r == Some(map["customer_id" := customerId])
    ensures intent == Str("list_customers") && r.Some? ==>
              entities.Obj? && "status" in r.value && Some(r.value["status"]) == StatusFilter(entities.fields, text)
    ensures intent == Str("list_customers") && entities.Obj? && StatusFilter(entities.fields, text).Some? ==> r.Some?
    ensures intent == Str("update_email") ==>
              (r.Some? <==> entities.Obj?) &&
              (r.Some? ==> "updates" in r.value && r.value["updates"] == EmailUpdates(entities.fields, text))
  {
    if IsDataIntent(intent) then
      var base := map["customer_id" := customerId];
      if intent == Str("list_customers") then
        if !entities.Obj? then None
        else match StatusFilter(entities.fields, text)
          case None => None
          case Some(status) => Some(base["status" := status])
      else if intent == Str("update_email") then
        if !entities.Obj? then None
        else Some(base["updates" := EmailUpdates(entities.fields, text)])
      else Some(base)
    else
      Some(map["customer_id" := customerId, "text" := Str(text), "entities" := entities])
  }

  /** `build_agent_task`: the specialist, the request envelope from
      `router`, the intent and its escalation flag. */
  function BuildTask(intent: Value, customerId: Value, text: string, entities: Value, stamp: Stamp): (r: Option<Task>)
    ensures r.Some? <==> TaskPayload(intent, customerId, text, entities).Some?
    ensures r.Some? ==> r.value.intent == intent
    ensures r.Some? ==> (r.value.escalate <==> IsEscalating(intent))
    ensures r.Some? ==> (r.value.agent == DataAgent <==> IsDataIntent(intent))
    ensures r.Some? ==> CheckSchema(r.value.message).Valid?
    ensures r.Some? ==> r.value.message["from"] == Str("router") && r.value.message["to"] == Str(AgentName(r.value.agent))
    ensures r.Some? ==> r.value.message["payload"] == Obj(TaskPayload(intent, customerId, text, entities).value)
  {
    match TaskPayload(intent, customerId, text, entities)
    case None => None
    case Some(payload) => Some(MakeTask(RouteOf(intent), intent, payload, EscalationFlag(intent), stamp))
  }

  /** Escalation is flagged for exactly the five escalating intents. */
  lemma EscalationTable(customerId: Value, text: string, stamp: Stamp)
    ensures forall name :: name in KnownIntents ==>
              var r := BuildTask(Str(name), customerId, text, Empty, stamp);
              r.Some? && (r.value.escalate <==> name in EscalatingIntents)
  {
    forall name | name in KnownIntents
      ensures BuildTask(Str(name), customerId, text, Empty, stamp).Some?
    {
      KnownIntentBuilds(name, customerId, text, stamp);
    }
  }

  /** Every intent the router knows builds a task when there are no entities. */
  lemma KnownIntentBuilds(name: string, customerId: Value, text: string, stamp: Stamp)
    requires name in KnownIntents
    ensures BuildTask(Str(name), customerId, text, Empty, stamp).Some?
  {
    if name == "list_customers" {
      assert StatusFilter(map[], text).Some?;
    }
  }

  // ---------------------------------------------------------------------
  // Aggregation
  // ---------------------------------------------------------------------

  /** How one dispatched task settled (`asyncio.gather(..., return_exceptions=True)`). */
  datatype Settled = Raised(reason: string) | Returned(value: Value)

  /** The status and data read out of one settled task. */
  datatype Unwrapped = Unwrapped(status: Value, data: Value)

  /** The unwrapping of one reply in `query_endpoint`. */
  function Unwrap(res: Settled): (u: Unwrapped)
    ensures res.Raised? ==> u == Unwrapped(Str("error"), Str(res.reason))
    ensures res.Returned? && !res.value.Obj? ==> u == Unwrapped(Str("error"), Null)
    ensures res.Returned? && res.value.Obj? && "payload" in res.value.fields ==>
              var p := res.value.fields["payload"];
              if p.Arr? && |p.items| > 0 then
                u.data == p.items[0] &&
                u.status == (if p.items[0].Obj? then Get(p.items[0].fields, "status", Str("ok")) else Str("ok"))
              else u == Unwrapped(Str("ok"), p)
    ensures res.Returned? && res.value.Obj? && "payload" !in res.value.fields ==>
              u.status == Get(res.value.fields, "status", Str("unknown")) &&
              u.data == Or(Get(res.value.fields, "data", Null), Get(res.value.fields, "error", Null))
  {
    match res
    case Raised(reason) => Unwrapped(Str("error"), Str(reason))
    case Returned(v) =>
      if !v.Obj? then Unwrapped(Str("error"), Null)
      else if "payload" in v.fields then
        var p := v.fields["payload"];
        if p.Arr? && |p.items| > 0 then
          var d := p.items[0];
          Unwrapped(if d.Obj? then Get(d.fields, "status", Str("ok")) else Str("ok"), d)
        else Unwrapped(Str("ok"), p)
      else Unwrapped(Get(v.fields, "status", Str("unknown")), Or(Get(v.fields, "data", Null), Get(v.fields, "error", Null)))
  }

  /** A specialist's error envelope carries a map payload, which the
      unwrapping reads as a success: the caller sees `status: ok` with the
      `{"error": ...}` map as data. */
  lemma ErrorEnvelopeReadsOk(request: Message, errorText: string, stamp: Stamp)
    ensures Unwrap(Returned(Obj(ErrorResponse(request, errorText, stamp)))) ==
              Unwrapped(Str("ok"), Obj(map["error" := Str(errorText)]))
  {
  }

  /** A peer that cannot be reached is reported as an error carrying the
      failure text, not as a crash. */
  lemma UnreachablePeerReadsError(task: Task, reason: string)
    requires CheckSchema(task.message).Valid?
    ensures Unwrap(Returned(SendMessage(task.message, Unreachable(reason)))) == Unwrapped(Str("error"), Str(reason))
  {
  }

  /** One result entry of the orchestrator's answer. */
  datatype Entry = Entry(intent: Value, status: Value, data: Value, escalate: bool)

  function EntryFor(task: Task, res: Settled): (e: Entry)
    ensures e.intent == task.intent && e.escalate == task.escalate
    ensures e.status == Unwrap(res).status && e.data == Unwrap(res).data
  {
    var u := Unwrap(res);
    Entry(task.intent, u.status, u.data, task.escalate)
  }

  /** `for intent in intents`: a list yields its items, a string its
      characters; any other value makes the loop raise (`None`). */
  function IterateIntents(v: Value): (r: Option<seq<Value>>)
    ensures v.Arr? ==> r == Some(v.items)
    ensures v.Str? ==> r.Some? && |r.value| == |v.s| && forall i :: 0 <= i < |v.s| ==> r.value[i] == Str([v.s[i]])
    ensures !v.Arr? && !v.Str? ==> r.None?
  {
    match v
    case Arr(items) => Some(items)
    case Str(s) => Some(seq(|s|, i requires 0 <= i < |s| => Str([s[i]])))
    case _ => None
  }

  /** One task per intent, in order, `build(intents[i], stamps[i])` making
      the i-th. The first intent whose task cannot be built makes the whole
      batch fail. */
  function BuildTasks(intents: seq<Value>, stamps: seq<Stamp>, build: (Value, Stamp) -> Option<Task>): (r: Option<seq<Task>>)
    requires |stamps| == |intents|
    ensures r.Some? ==> |r.value| == |intents|
    ensures r.Some? ==> forall i :: 0 <= i < |intents| ==> build(intents[i], stamps[i]) == Some(r.value[i])
    ensures r.None? ==> exists i :: 0 <= i < |intents| && build(intents[i], stamps[i]).None?
    decreases |intents|
  {
    if intents == [] then Some([])
    else
      var head := build(intents[0], stamps[0]);
      var tail := BuildTasks(intents[1..], stamps[1..], build);
      if head.None? then None
      else if tail.None? then
        assert forall j :: 0 <= j < |intents| - 1 ==> intents[1..][j] == intents[j + 1] && stamps[1..][j] == stamps[j + 1];
        None
      else
        var r := [head.value] + tail.value;
        assert forall i :: 1 <= i < |intents| ==>
          r[i] == tail.value[i - 1] && intents[i] == intents[1..][i - 1] && stamps[i] == stamps[1..][i - 1];
        Some(r)
  }

  /** The answer of the query endpoint: a precondition failure, the ordered
      result entries, or an exception (HTTP 500) from ill-typed oracle data. */
  datatype QueryResult = Rejected(message: string) | Answered(results: seq<Entry>) | Crashed

  /** `query_endpoint` given the oracle's answer, the outcome of the HTTP
      call made for the i-th task (`peers(i)`) and the stamps of the
      outbound envelopes. The concurrent fan-out is a map over the tasks:
      `gather` returns results in task order. */
  function HandleQuery(text: string, customerId: Value, reply: Option<Value>,
                       peers: nat -> PeerOutcome, stamps: nat -> Stamp): (q: QueryResult)
    ensures q.Rejected? <==> text == [] || !Truthy(customerId)
    ensures q.Rejected? ==> q.message == "Missing 'text' or 'customer_id'"
    ensures q.Answered? ==>
              var c := Classify(reply, text);
              IterateIntents(c.intents).Some? &&
              var intents := IterateIntents(c.intents).value;
              |q.results| == |intents| &&
              forall i :: 0 <= i < |intents| ==>
                q.results[i].intent == intents[i] && (q.results[i].escalate <==> IsEscalating(intents[i]))
    ensures q.Answered? ==> forall i :: 0 <= i < |q.results| && peers(i).Unreachable? ==>
              q.results[i].status == Str("error") && q.results[i].data == Str(peers(i).reason)
    ensures q.Answered? ==> forall i :: 0 <= i < |q.results| && Delivered(peers(i)) ==>
              Unwrapped(q.results[i].status, q.results[i].data) == Unwrap(Returned(peers(i).body.value))
  {
    if text == [] || !Truthy(customerId) then Rejected("Missing 'text' or 'customer_id'")
    else
      var c := Classify(reply, text);
      match IterateIntents(c.intents)
      case None => Crashed
      case Some(intents) =>
        match AnswerIntents(intents, customerId, text, c.entities, peers, stamps)
        case None => Crashed
        case Some(entries) => Answered(entries)
  }

  /** Building one task per intent and fanning them out. `None` stands for
      the exception of an intent whose task cannot be built. */
  function AnswerIntents(intents: seq<Value>, customerId: Value, text: string, entities: Value,
                         peers: nat -> PeerOutcome, stamps: nat -> Stamp): (r: Option<seq<Entry>>)
    ensures r.Some? ==> |r.value| == |intents|
    ensures r.Some? ==> forall i :: 0 <= i < |intents| ==>
              r.value[i].intent == intents[i] && (r.value[i].escalate <==> IsEscalating(intents[i]))
    ensures r.Some? ==> forall i :: 0 <= i < |intents| && peers(i).Unreachable? ==>
              r.value[i].status == Str("error") && r.value[i].data == Str(peers(i).reason)
    ensures r.None? <==> exists i :: 0 <= i < |intents| && BuildTask(intents[i], customerId, text, entities, stamps(i)).None?
    ensures r.Some? ==> forall i :: 0 <= i < |intents| ==>
              BuildTask(intents[i], customerId, text, entities, stamps(i)).Some? &&
              r.value[i] == Exchange(BuildTask(intents[i], customerId, text, entities, stamps(i)).value, peers(i))
    ensures r.Some? ==> forall i :: 0 <= i < |intents| && Delivered(peers(i)) ==>
              Unwrapped(r.value[i].status, r.value[i].data) == Unwrap(Returned(peers(i).body.value))
  {
    var build := TaskBuilder(customerId, text, entities);
    var sts := StampsFor(|intents|, stamps);
    match BuildTasks(intents, sts, build)
    case None => None
    case Some(tasks) =>
      forall i | 0 <= i < |intents|
        ensures tasks[i].intent == intents[i] && (tasks[i].escalate <==> IsEscalating(intents[i]))
        ensures CheckSchema(tasks[i].message).Valid?
        ensures BuildTask(intents[i], customerId, text, entities, stamps(i)) == Some(tasks[i])
      {
        assert sts[i] == stamps(i);
        assert build(intents[i], sts[i]) == Some(tasks[i]);
      }
      Some(FanOut(tasks, peers))
  }

  /** `build_agent_task` with the request's customer, text and entities fixed. */
  function TaskBuilder(customerId: Value, text: string, entities: Value): (build: (Value, Stamp) -> Option<Task>)
    ensures forall v, st :: build(v, st) == BuildTask(v, customerId, text, entities, st)
  {
    (v, st) => BuildTask(v, customerId, text, entities, st)
  }

  /** The stamps of the first `n` outbound envelopes, in task order. */
  function StampsFor(n: nat, stamps: nat -> Stamp): (sts: seq<Stamp>)
    ensures |sts| == n && forall i :: 0 <= i < n ==> sts[i] == stamps(i)
  {
    seq(n, i requires 0 <= i < n => stamps(i))
  }

  /** The i-th entry of a fan-out depends on the i-th peer only. */
  lemma FanOutIsolated(tasks: seq<Task>, p1: nat -> PeerOutcome, p2: nat -> PeerOutcome, i: nat)
    requires i < |tasks| && p1(i) == p2(i)
    ensures FanOut(tasks, p1)[i] == FanOut(tasks, p2)[i]
  {
  }

  /** Answering a list of intents: the i-th entry depends on the i-th peer
      only, and whether the batch is built does not depend on the peers. */
  lemma AnswersAreIsolated(intents: seq<Value>, customerId: Value, text: string, entities: Value,
                           p1: nat -> PeerOutcome, p2: nat -> PeerOutcome, stamps: nat -> Stamp, i: nat)
    requires i < |intents| && p1(i) == p2(i)
    requires AnswerIntents(intents, customerId, text, entities, p1, stamps).Some?
    ensures AnswerIntents(intents, customerId, text, entities, p2, stamps).Some?
    ensures AnswerIntents(intents, customerId, text, entities, p2, stamps).value[i] ==
              AnswerIntents(intents, customerId, text, entities, p1, stamps).value[i]
  {
    var tasks := BuildTasks(intents, StampsFor(|intents|, stamps), TaskBuilder(customerId, text, entities));
    FanOutIsolated(tasks.value, p1, p2, i);
  }

  /** The concurrent fan-out, as a map over the tasks: `gather` returns the
      replies in task order, and the i-th task's HTTP call ends in `peers(i)`. */
  function FanOut(tasks: seq<Task>, peers: nat -> PeerOutcome): (entries: seq<Entry>)
    ensures |entries| == |tasks|
    ensures forall i :: 0 <= i < |tasks| ==>
              entries[i].intent == tasks[i].intent && entries[i].escalate == tasks[i].escalate
    ensures forall i :: 0 <= i < |tasks| && peers(i).Unreachable? && CheckSchema(tasks[i].message).Valid? ==>
              entries[i].status == Str("error") && entries[i].data == Str(peers(i).reason)
    ensures forall i :: 0 <= i < |tasks| ==> entries[i] == Exchange(tasks[i], peers(i))
  {
    var entries := seq(|tasks|, i requires 0 <= i < |tasks| => Exchange(tasks[i], peers(i)));
    assert forall i :: 0 <= i < |tasks| ==> entries[i] == Exchange(tasks[i], peers(i));
    entries
  }

  /** A peer that answered 200 with a JSON body. */
  predicate Delivered(outcome: PeerOutcome) {
    outcome.Responded? && outcome.status == 200 && outcome.body.Decoded?
  }

  /** One task sent to its peer and its reply unwrapped into an entry. */
  function Exchange(task: Task, outcome: PeerOutcome): (e: Entry)
    ensures e.intent == task.intent && e.escalate == task.escalate
    ensures outcome.Unreachable? && CheckSchema(task.message).Valid? ==>
              e.status == Str("error") && e.data == Str(outcome.reason)
    ensures Delivered(outcome) && CheckSchema(task.message).Valid? ==>
              Unwrapped(e.status, e.data) == Unwrap(Returned(outcome.body.value))
    ensures outcome.Responded? && outcome.status != 200 && CheckSchema(task.message).Valid? ==>
              e.status == Str("error") && e.data == Str("HTTP " + IntToString(outcome.status) + ": " + outcome.text)
  {
    EntryFor(task, Returned(SendMessage(task.message, outcome)))
  }

  /** One peer down does not sink the query: with two intents, the first
      peer unreachable and the second answering `{"payload": [d]}`, the first
      entry carries the connection error and the second reads `d` with the
      default status `ok`. */
  lemma PartialFailure(text: string, customerId: Value, peers: nat -> PeerOutcome, stamps: nat -> Stamp,
                       reason: string, body: string, d: map<string, Value>)
    requires text != [] && Truthy(customerId)
    requires peers(0) == Unreachable(reason)
    requires peers(1) == Responded(200, body, Decoded(Obj(map["payload" := Arr([Obj(d)])])))
    requires "status" !in d
    ensures var reply := Some(Obj(map["intents" := Arr([Str("get_customer_info"), Str("support_request")])]));
            var q := HandleQuery(text, customerId, reply, peers, stamps);
            q.Answered? && |q.results| == 2 &&
            q.results[0].status == Str("error") && q.results[0].data == Str(reason) &&
            q.results[1].status == Str("ok") && q.results[1].data == Obj(d)
  {
    var reply := Some(Obj(map["intents" := Arr([Str("get_customer_info"), Str("support_request")])]));
    var intents := [Str("get_customer_info"), Str("support_request")];
    assert Classify(reply, text) == Classification(Arr(intents), Empty);
    PartialFailureEntries(text, customerId, peers, stamps, reason, body, d);
    AnsweredWith(text, customerId, reply, peers, stamps, intents);
  }

  /** The two entries of the partial-failure scenario. */
  lemma PartialFailureEntries(text: string, customerId: Value, peers: nat -> PeerOutcome, stamps: nat -> Stamp,
                              reason: string, body: string, d: map<string, Value>)
    requires peers(0) == Unreachable(reason)
    requires peers(1) == Responded(200, body, Decoded(Obj(map["payload" := Arr([Obj(d)])])))
    requires "status" !in d
    ensures var r := AnswerIntents([Str("get_customer_info"), Str("support_request")], customerId, text, Empty, peers, stamps);
            r.Some? && |r.value| == 2 &&
            r.value[0].status == Str("error") && r.value[0].data == Str(reason) &&
            r.value[1].status == Str("ok") && r.value[1].data == Obj(d)
  {
    TwoIntentsBuild(customerId, text, peers, stamps);
    assert Delivered(peers(1));
    SinglePayloadReadsOk(d);
  }

  /** Both intents of the partial-failure scenario have a task. */
  lemma TwoIntentsBuild(customerId: Value, text: string, peers: nat -> PeerOutcome, stamps: nat -> Stamp)
    ensures AnswerIntents([Str("get_customer_info"), Str("support_request")], customerId, text, Empty, peers, stamps).Some?
  {
    var intents := [Str("get_customer_info"), Str("support_request")];
    forall i | 0 <= i < |intents|
      ensures BuildTask(intents[i], customerId, text, Empty, stamps(i)).Some?
    {
      KnownIntentBuilds(if i == 0 then "get_customer_info" else "support_request", customerId, text, stamps(i));
    }
  }

  /** A one-item payload without a `status` key reads as `ok` with the item as data. */
  lemma SinglePayloadReadsOk(d: map<string, Value>)
    requires "status" !in d
    ensures Unwrap(Returned(Obj(map["payload" := Arr([Obj(d)])]))) == Unwrapped(Str("ok"), Obj(d))
  {
  }

  /** A reply that is not a usable object never crashes the endpoint: the
      fallback yields exactly one answered entry. */
  lemma FallbackAlwaysAnswers(text: string, customerId: Value, reply: Option<Value>,
                              peers: nat -> PeerOutcome, stamps: nat -> Stamp)
    requires text != [] && Truthy(customerId)
    requires !IsUsableReply(reply)
    ensures HandleQuery(text, customerId, reply, peers, stamps).Answered?
    ensures |HandleQuery(text, customerId, reply, peers, stamps).results| == 1
  {
    var intents := [Str(FallbackIntent(text))];
    FallbackClassification(reply, text);
    KnownIntentBuilds(FallbackIntent(text), customerId, text, stamps(0));
    SingleIntentAnswers(intents[0], customerId, text, Empty, peers, stamps);
    AnsweredWith(text, customerId, reply, peers, stamps, intents);
  }

  /** The endpoint answers exactly when the request is well-formed, the
      intents can be iterated and every task can be built; the answer holds
      the entries of those intents. */
  lemma AnsweredWith(text: string, customerId: Value, reply: Option<Value>,
                     peers: nat -> PeerOutcome, stamps: nat -> Stamp, intents: seq<Value>)
    requires IterateIntents(Classify(reply, text).intents) == Some(intents)
    ensures HandleQuery(text, customerId, reply, peers, stamps).Answered? <==>
              text != [] && Truthy(customerId) &&
              AnswerIntents(intents, customerId, text, Classify(reply, text).entities, peers, stamps).Some?
    ensures HandleQuery(text, customerId, reply, peers, stamps).Answered? ==>
              HandleQuery(text, customerId, reply, peers, stamps).results ==
              AnswerIntents(intents, customerId, text, Classify(reply, text).entities, peers, stamps).value
  {
  }

  /** An unusable reply is classified as the one fallback intent with no
      entities. */
  lemma FallbackClassification(reply: Option<Value>, text: string)
    requires !IsUsableReply(reply)
    ensures IterateIntents(Classify(reply, text).intents) == Some([Str(FallbackIntent(text))])
    ensures Classify(reply, text).entities == Empty
  {
    var c := Classify(reply, text);
    assert c.intents == Arr([Str(FallbackIntent(text))]);
  }

  /** A single intent whose task can be built is answered with one entry. */
  lemma SingleIntentAnswers(intent: Value, customerId: Value, text: string, entities: Value,
                            peers: nat -> PeerOutcome, stamps: nat -> Stamp)
    requires BuildTask(intent, customerId, text, entities, stamps(0)).Some?
    ensures AnswerIntents([intent], customerId, text, entities, peers, stamps).Some?
    ensures |AnswerIntents([intent], customerId, text, entities, peers, stamps).value| == 1
  {
    var intents := [intent];
    forall i | 0 <= i < |intents|
      ensures BuildTask(intents[i], customerId, text, entities, stamps(i)).Some?
    {
      assert i == 0;
    }
  }

  /** An oracle answer with an empty intent list yields zero results. */
  lemma NoIntentsNoResults(text: string, customerId: Value, fields: map<string, Value>,
                           peers: nat -> PeerOutcome, stamps: nat -> Stamp)
    requires text != [] && Truthy(customerId)
    requires |fields| > 0 && Get(fields, "intents", Arr([])) == Arr([])
    ensures HandleQuery(text, customerId, Some(Obj(fields)), peers, stamps) == Answered([])
  {
    var c := Classify(Some(Obj(fields)), text);
    assert c.intents == Arr([]);
    var r := AnswerIntents([], customerId, text, c.entities, peers, stamps);
    assert r.Some? && |r.value| == 0;
  }

  /** Failures are isolated per task: an entry depends only on its own
      peer's outcome, whatever the others did. */
  lemma EntriesAreIsolated(text: string, customerId: Value, reply: Option<Value>,
                           p1: nat -> PeerOutcome, p2: nat -> PeerOutcome, stamps: nat -> Stamp, i: nat)
    requires p1(i) == p2(i)
    requires HandleQuery(text, customerId, reply, p1, stamps).Answered?
    requires i < |HandleQuery(text, customerId, reply, p1, stamps).results|
    ensures HandleQuery(text, customerId, reply, p2, stamps).Answered?
    ensures HandleQuery(text, customerId, reply, p2, stamps).results[i] ==
              HandleQuery(text, customerId, reply, p1, stamps).results[i]
  {
    var c := Classify(reply, text);
    var intents := IterateIntents(c.intents).value;
    AnsweredWith(text, customerId, reply, p1, stamps, intents);
    AnswersAreIsolated(intents, customerId, text, c.entities, p1, p2, stamps, i);
    AnsweredWith(text, customerId, reply, p2, stamps, intents);
  }
}
