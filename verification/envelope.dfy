/** The inter-agent message envelope: construction, schema validation and
    error mirroring (agents/agent_client.py). */
module Envelope {
  import opened Text
  import opened Json

  /** A message as it travels between agents: a JSON object. */
  type Message = map<string, Value>

  /** The values the source draws from uuid4 and the clock for one message:
      the message id, the correlation id used when the caller gives none,
      and the UTC timestamp. */
  datatype Stamp = Stamp(messageId: string, freshCorrelation: string, timestamp: string)

  /** The seven keys every envelope must carry, in the order the schema
      check reports them. */
  const Required: seq<string> := ["message_id", "from", "to", "type", "intent", "payload", "correlation_id"]

  /** `r` lists elements of `keys`, in the order they appear there. */
  predicate IsSubsequence(r: seq<string>, keys: seq<string>)
    decreases |keys|
  {
    if r == [] then true
    else if keys == [] then false
    else if r[0] == keys[0] then IsSubsequence(r[1..], keys[1..])
    else IsSubsequence(r, keys[1..])
  }

  /** The keys of `keys` that `m` lacks, in their order in `keys`. */
  function MissingKeys(keys: seq<string>, m: Message): (r: seq<string>)
    ensures forall k :: k in r <==> k in keys && k !in m
    ensures IsSubsequence(r, keys)
  {
    if keys == [] then []
    else if keys[0] in m then MissingKeys(keys[1..], m)
    else [keys[0]] + MissingKeys(keys[1..], m)
  }

  /** The verdict of `check_message_schema`: valid, or the list of every
      missing required key. */
  datatype SchemaCheck = Valid | Invalid(missing: seq<string>)

  /** The seven required keys, spelled out one by one. */
  predicate HasEnvelopeKeys(m: Message) {
    "message_id" in m && "from" in m && "to" in m && "type" in m &&
    "intent" in m && "payload" in m && "correlation_id" in m
  }

  /** The spelled-out key test is the test against the required list. */
  lemma RequiredKeysSpelledOut(m: Message)
    ensures HasEnvelopeKeys(m) <==> forall k :: k in Required ==> k in m
  {
  }

  function CheckSchema(m: Message): (r: SchemaCheck)
    ensures r.Valid? <==> HasEnvelopeKeys(m)
    ensures r.Invalid? ==> |r.missing| > 0 && IsSubsequence(r.missing, Required)
    ensures r.Invalid? ==> forall k :: k in r.missing <==> k in Required && k !in m
  {
    var missing := MissingKeys(Required, m);
    RequiredKeysSpelledOut(m);
    if missing == [] then Valid else assert missing[0] in missing; Invalid(missing)
  }

  /** Python's `repr` of a list of keys: `['a', 'b']`. */
  function ReprList(ks: seq<string>): (r: string)
    ensures |r| >= 2 && r[0] == '[' && r[|r| - 1] == ']'
    ensures forall i :: 0 <= i < |ks| ==> Contains(r, Quoted(ks[i]))
  {
    var items := ReprItems(ks);
    StillContains("[", items, "]", ks);
    "[" + items + "]"
  }

  /** A key as `repr` writes it; the envelope's keys hold no quote
      character, so `repr` uses single quotes. */
  function Quoted(k: string): string {
    "'" + k + "'"
  }

  /** The comma-separated quoted keys: each key appears quoted. */
  function ReprItems(ks: seq<string>): (r: string)
    ensures r == [] <==> ks == []
    ensures forall i :: 0 <= i < |ks| ==> Contains(r, Quoted(ks[i]))
  {
    if ks == [] then ""
    else if |ks| == 1 then
      SelfContains(Quoted(ks[0]));
      Quoted(ks[0])
    else
      var rest := ReprItems(ks[1..]);
      ConsContains(ks, rest);
      Quoted(ks[0]) + ", " + rest
  }

  lemma SelfContains(s: string)
    ensures Contains(s, s)
  {
    assert OccursAt(s, s, 0);
    ContainsIff(s, s);
  }

  /** The first key, quoted, then the text that contains the others. */
  lemma ConsContains(ks: seq<string>, rest: string)
    requires |ks| > 1
    requires forall i :: 0 <= i < |ks| - 1 ==> Contains(rest, Quoted(ks[1..][i]))
    ensures forall i :: 0 <= i < |ks| ==> Contains(Quoted(ks[0]) + ", " + rest, Quoted(ks[i]))
  {
    var head := Quoted(ks[0]);
    SelfContains(head);
    ContainsInside([], head, ", " + rest, head);
    assert [] + head + (", " + rest) == head + ", " + rest;
    StillContains(head + ", ", rest, [], ks[1..]);
    assert head + ", " + rest + [] == head + ", " + rest;
    forall i | 1 <= i < |ks|
      ensures Contains(head + ", " + rest, Quoted(ks[i]))
    {
      assert ks[i] == ks[1..][i - 1];
    }
  }

  /** Every quoted key `s` contains, it still contains once text is added
      on either side. */
  lemma StillContains(p: string, s: string, q: string, ks: seq<string>)
    requires forall i :: 0 <= i < |ks| ==> Contains(s, Quoted(ks[i]))
    ensures forall i :: 0 <= i < |ks| ==> Contains(p + s + q, Quoted(ks[i]))
  {
    forall i | 0 <= i < |ks|
      ensures Contains(p + s + q, Quoted(ks[i]))
    {
      ContainsInside(p, s, q, Quoted(ks[i]));
    }
  }

  const SchemaErrorPrefix: string := "Invalid A2A Message. Missing: "

  /** The text of the `ValueError` raised for an invalid envelope: the
      fixed prefix, then the list naming every missing key. */
  function SchemaErrorText(missing: seq<string>): (r: string)
    ensures SchemaErrorPrefix <= r && r[|r| - 1] == ']'
    ensures forall k :: k in missing ==> Contains(r, Quoted(k))
  {
    var list := ReprList(missing);
    StillContains(SchemaErrorPrefix, list, [], missing);
    assert SchemaErrorPrefix + list + [] == SchemaErrorPrefix + list;
    SchemaErrorPrefix + list
  }

  /** `create_a2a_message`: the payload is the content when it is truthy and
      `{}` otherwise; the correlation id is the caller's when truthy and a
      fresh token otherwise. */
  function CreateMessage(sender: Value, recipient: Value, intent: Value, content: Value,
                         msgType: string, corrId: Value, stamp: Stamp): (m: Message)
    ensures CheckSchema(m).Valid?
    ensures m["from"] == sender && m["to"] == recipient && m["intent"] == intent
    ensures m["type"] == Str(msgType)
    ensures Truthy(content) ==> m["payload"] == content
    ensures !Truthy(content) ==> m["payload"] == Empty
    ensures Truthy(m["payload"]) || m["payload"] == Empty
    ensures Truthy(corrId) ==> m["correlation_id"] == corrId
    ensures !Truthy(corrId) ==> m["correlation_id"] == Str(stamp.freshCorrelation)
  {
    map[
      "message_id" := Str(stamp.messageId),
      "from" := sender,
      "to" := recipient,
      "type" := Str(msgType),
      "intent" := intent,
      "payload" := Or(content, Empty),
      "correlation_id" := Or(corrId, Str(stamp.freshCorrelation)),
      "timestamp" := Str(stamp.timestamp)
    ]
  }

  /** `generate_error_response`: an `error` envelope whose sender and
      recipient are the original's recipient and sender (`"unknown"` when
      absent), carrying `{"error": text}`. */
  function ErrorResponse(orig: Message, errorText: string, stamp: Stamp): (r: Message)
    ensures CheckSchema(r).Valid?
    ensures r["type"] == Str("error")
    ensures r["payload"] == Obj(map["error" := Str(errorText)])
    ensures "to" in orig ==> r["from"] == orig["to"]
    ensures "from" in orig ==> r["to"] == orig["from"]
    ensures "to" !in orig ==> r["from"] == Str("unknown")
    ensures "from" !in orig ==> r["to"] == Str("unknown")
    ensures "intent" in orig ==> r["intent"] == orig["intent"]
    ensures "intent" !in orig ==> r["intent"] == Str("error")
    ensures "correlation_id" in orig && Truthy(orig["correlation_id"]) ==> r["correlation_id"] == orig["correlation_id"]
  {
    CreateMessage(
      Get(orig, "to", Str("unknown")),
      Get(orig, "from", Str("unknown")),
      Get(orig, "intent", Str("error")),
      Obj(map["error" := Str(errorText)]),
      "error",
      Get(orig, "correlation_id", Null),
      stamp)
  }

  /** Mirroring an error twice routes it back to the original sender and
      recipient, with the same intent and (when it had one) correlation id. */
  lemma MirrorTwice(m: Message, t1: string, t2: string, s1: Stamp, s2: Stamp)
    requires "from" in m && "to" in m && "intent" in m
    ensures ErrorResponse(ErrorResponse(m, t1, s1), t2, s2)["from"] == m["from"]
    ensures ErrorResponse(ErrorResponse(m, t1, s1), t2, s2)["to"] == m["to"]
    ensures ErrorResponse(ErrorResponse(m, t1, s1), t2, s2)["intent"] == m["intent"]
    ensures "correlation_id" in m && Truthy(m["correlation_id"]) ==>
              ErrorResponse(ErrorResponse(m, t1, s1), t2, s2)["correlation_id"] == m["correlation_id"]
  {
  }

  /** The schema check reports every missing key, not only the first: a
      message lacking two required keys is rejected naming both. */
  lemma ReportsEveryMissingKey(m: Message, a: string, b: string)
    requires a in Required && b in Required && a != b
    requires a !in m && b !in m
    ensures CheckSchema(m).Invalid?
    ensures a in CheckSchema(m).missing && b in CheckSchema(m).missing
    ensures |CheckSchema(m).missing| >= 2
  {
    var r := CheckSchema(m).missing;
    assert a in r && b in r;
  }
}
