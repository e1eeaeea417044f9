/** The tool host's tools (mcp_server/app.py): each normalises its
    arguments, calls the table operation and returns the JSON document of
    the result. A raised exception is the `Err` text. */
module ToolHost {
  import opened Wrappers
  import opened Text
  import opened Json
  import opened Store

  // ---------------------------------------------------------------------
  // Rows as JSON documents
  // ---------------------------------------------------------------------

  function OptText(o: Option<string>): Value {
    match o
    case Some(s) => Str(s)
    case None => Null
  }

  /** `dict(row)` of a customer row. */
  function CustomerValue(c: Customer): (v: Value)
    ensures v.Obj? && v.fields.Keys == {"id", "name", "email", "phone", "status", "tier", "billing_info", "created_at", "updated_at"}
    ensures At(v, "id") == Num(c.id) && At(v, "status") == Str(StatusName(c.status)) && At(v, "tier") == Str(TierName(c.tier))
  {
    Obj(map[
      "id" := Num(c.id), "name" := Str(c.name), "email" := OptText(c.email), "phone" := OptText(c.phone),
      "status" := Str(StatusName(c.status)), "tier" := Str(TierName(c.tier)),
      "billing_info" := OptText(c.billingInfo), "created_at" := Str(c.createdAt), "updated_at" := Str(c.updatedAt)])
  }

  /** `dict(row)` of a ticket row. */
  function TicketValue(t: Ticket): (v: Value)
    ensures v.Obj? && v.fields.Keys == {"id", "customer_id", "issue", "status", "priority", "created_at"}
    ensures At(v, "id") == Num(t.id) && At(v, "customer_id") == Num(t.customerId)
    ensures At(v, "status") == Str(TicketStatusName(t.status)) && At(v, "priority") == Str(PriorityName(t.priority))
    ensures At(v, "issue") == Str(t.issue) && At(v, "created_at") == Str(t.createdAt)
  {
    Obj(map[
      "id" := Num(t.id), "customer_id" := Num(t.customerId), "issue" := Str(t.issue),
      "status" := Str(TicketStatusName(t.status)), "priority" := Str(PriorityName(t.priority)),
      "created_at" := Str(t.createdAt)])
  }

  function CustomerRows(cs: seq<Customer>): (v: Value)
    ensures v.Arr? && |v.items| == |cs|
    ensures forall i :: 0 <= i < |cs| ==> v.items[i] == CustomerValue(cs[i])
  {
    Arr(seq(|cs|, i requires 0 <= i < |cs| => CustomerValue(cs[i])))
  }

  /** Every row of `cs` has its document in the listing. */
  lemma CustomerRowsListAll(cs: seq<Customer>)
    ensures forall c :: c in cs ==> CustomerValue(c) in CustomerRows(cs).items
  {
    forall c | c in cs
      ensures CustomerValue(c) in CustomerRows(cs).items
    {
      var i :| 0 <= i < |cs| && cs[i] == c;
      assert CustomerRows(cs).items[i] == CustomerValue(c);
    }
  }

  function TicketRows(ts: seq<Ticket>): (v: Value)
    ensures v.Arr? && |v.items| == |ts|
    ensures forall i :: 0 <= i < |ts| ==> v.items[i] == TicketValue(ts[i])
  {
    Arr(seq(|ts|, i requires 0 <= i < |ts| => TicketValue(ts[i])))
  }

  // ---------------------------------------------------------------------
  // Argument normalisation
  // ---------------------------------------------------------------------

  const StatusWords: set<string> := {"active", "disabled"}
  const TierWords: set<string> := {"standard", "premium", "enterprise"}

  /** A listing filter as `list_customers` cleans it: a truthy value is
      lower-cased and stripped, and dropped when it is not a vocabulary
      word; a falsy one is left as it is. */
  function NormalizeChoice(given: Option<string>, words: set<string>): (r: Option<string>)
    ensures given.None? || given.value == [] ==> r == given
    ensures given.Some? && given.value != [] ==>
              (r.Some? <==> Strip(Lower(given.value)) in words) &&
              (r.Some? ==> r.value == Strip(Lower(given.value)))
  {
    if given.Some? && given.value != [] then
      var cleaned := Strip(Lower(given.value));
      if cleaned in words then Some(cleaned) else None
    else given
  }

  /** `ls.lower()` applied to a truthy filter (the ticket listing's and the
      ticket priority's cleaning has no strip). */
  function LowerTruthy(given: Option<string>): (r: Option<string>)
    ensures given.Some? && given.value != [] ==> r == Some(Lower(given.value))
    ensures given.None? || given.value == [] ==> r == given
  {
    if given.Some? && given.value != [] then Some(Lower(given.value)) else given
  }

  /** The listing's default page size. */
  const DefaultLimit: int := 10

  // ---------------------------------------------------------------------
  // Tools
  // ---------------------------------------------------------------------

  /** `get_customer`: the row, or JSON `null`. */
  function GetCustomer(db: Db, id: int): (v: Value)
    ensures v.Null? <==> !HasCustomer(db, id)
    ensures !v.Null? ==> v.Obj? && At(v, "id") == Num(id)
    ensures !v.Null? ==> v == CustomerValue(FetchCustomer(db, id).value)
  {
    match FetchCustomer(db, id)
    case Some(c) => CustomerValue(c)
    case None => Null
  }

  /** `list_customers` (an omitted `limit` is `Some(DefaultLimit)`): the
      cleaned filters always pass validation, so the listing never fails. */
  function ListCustomers(db: Db, status: Option<string>, tier: Option<string>, limit: Option<int>): (r: Result<Value>)
    ensures r.Ok? && r.value.Arr?
    ensures limit.Some? && limit.value > 0 ==> |r.value.items| <= limit.value
    ensures var m := MatchingCustomers(db.customers, NormalizeChoice(status, StatusWords), NormalizeChoice(tier, TierWords));
            |r.value.items| == |Limit(m, limit)| &&
            forall i :: 0 <= i < |r.value.items| ==> r.value.items[i] == CustomerValue(m[i])
    ensures !(limit.Some? && limit.value > 0) ==>
              forall c :: c in db.customers && CustomerMatches(c, NormalizeChoice(status, StatusWords), NormalizeChoice(tier, TierWords)) ==>
                CustomerValue(c) in r.value.items
  {
    var rows := ListedRows(db, NormalizeChoice(status, StatusWords), NormalizeChoice(tier, TierWords), limit);
    CustomerRowsListAll(rows);
    Ok(CustomerRows(rows))
  }

  /** Every listed customer has the status and tier the cleaned filters name. */
  lemma ListingAppliesFilters(db: Db, status: Option<string>, tier: Option<string>, limit: Option<int>, i: nat)
    requires i < |ListCustomers(db, status, tier, limit).value.items|
    ensures var s := NormalizeChoice(status, StatusWords);
            s.Some? && s.value != [] ==> At(ListCustomers(db, status, tier, limit).value.items[i], "status") == Str(s.value)
    ensures var t := NormalizeChoice(tier, TierWords);
            t.Some? && t.value != [] ==> At(ListCustomers(db, status, tier, limit).value.items[i], "tier") == Str(t.value)
  {
    var rows := ListedRows(db, NormalizeChoice(status, StatusWords), NormalizeChoice(tier, TierWords), limit);
    assert rows[i] in rows;
    assert ListCustomers(db, status, tier, limit).value.items[i] == CustomerValue(rows[i]);
  }

  /** The rows listed for cleaned filters. */
  function ListedRows(db: Db, s: Option<string>, t: Option<string>, limit: Option<int>): (rows: seq<Customer>)
    requires s.Some? && s.value != [] ==> s.value in StatusWords
    requires t.Some? && t.value != [] ==> t.value in TierWords
    ensures limit.Some? && limit.value > 0 ==> |rows| <= limit.value
    ensures s.Some? && s.value != [] ==> forall c :: c in rows ==> StatusName(c.status) == s.value
    ensures t.Some? && t.value != [] ==> forall c :: c in rows ==> TierName(c.tier) == t.value
    ensures rows == Limit(MatchingCustomers(db.customers, s, t), limit)
    ensures !(limit.Some? && limit.value > 0) ==>
              forall c :: c in db.customers && CustomerMatches(c, s, t) ==> c in rows
  {
    CleanedFiltersPass(s, t);
    FetchCustomers(db, s, t, limit).value
  }

  /** Cleaned listing filters are always accepted by the table query. */
  lemma CleanedFiltersPass(s: Option<string>, t: Option<string>)
    requires s.Some? && s.value != [] ==> s.value in StatusWords
    requires t.Some? && t.value != [] ==> t.value in TierWords
    ensures FilterArg(s, ParseStatus, Store.StatusError).Ok?
    ensures FilterArg(t, ParseTier, TierError).Ok?
  {
  }

  /** `update_customer`: a string status or tier is lower-cased (not
      stripped) before the update. */
  function LowerChoices(data: map<string, Value>): (r: map<string, Value>)
    ensures r.Keys == data.Keys
    ensures forall k :: k in data && (k == "status" || k == "tier") && data[k].Str? ==> r[k] == Str(Lower(data[k].s))
    ensures forall k :: k in data && !((k == "status" || k == "tier") && data[k].Str?) ==> r[k] == data[k]
  {
    map k | k in data :: if (k == "status" || k == "tier") && data[k].Str? then Str(Lower(data[k].s)) else data[k]
  }

  function UpdateCustomer(db: Db, id: int, data: map<string, Value>, order: seq<string>, now: string): (r: Result<(Db, Value)>)
    requires forall k :: k in data <==> k in order
    ensures var m := ModifyCustomer(db, id, LowerChoices(data), order, now);
            (r.Ok? <==> m.Ok?) && (m.Err? ==> r == Err(m.error)) &&
            (m.Ok? ==> r.value.0 == m.value.0 && r.value.1 == CustomerValue(m.value.1))
    ensures r.Ok? ==> At(r.value.1, "id") == Num(id)
    ensures r.Ok? && "status" in data && data["status"].Str? ==> At(r.value.1, "status") == Str(Lower(data["status"].s))
    ensures r.Ok? && "tier" in data && data["tier"].Str? ==> At(r.value.1, "tier") == Str(Lower(data["tier"].s))
    ensures r.Ok? ==> r.value.0.tickets == db.tickets
  {
    match ModifyCustomer(db, id, LowerChoices(data), order, now)
    case Err(e) => Err(e)
    case Ok((db', row)) => Ok((db', CustomerValue(row)))
  }

  /** A truthy priority lower-cased and stripped, as `create_ticket` cleans it. */
  function CleanPriority(priority: string): (p: string)
    ensures priority == [] ==> p == []
    ensures priority != [] ==> p == Strip(Lower(priority))
  {
    if priority == [] then priority else Strip(Lower(priority))
  }

  /** The case of a string status or tier does not matter to an update:
      upper- and lower-case spellings give the same answer. */
  lemma UpdateIgnoresCase(db: Db, id: int, data: map<string, Value>, order: seq<string>, now: string)
    requires forall k :: k in data <==> k in order
    ensures UpdateCustomer(db, id, data, order, now) == UpdateCustomer(db, id, LowerChoices(data), order, now)
  {
    var once := LowerChoices(data);
    forall k | k in once
      ensures LowerChoices(once)[k] == once[k]
    {
      if (k == "status" || k == "tier") && data[k].Str? {
        LowerIdempotent(data[k].s);
      }
    }
    assert LowerChoices(once) == once;
  }

  /** `create_ticket`: a new open ticket with the cleaned priority. */
  function CreateTicket(db: Db, id: int, issue: string, priority: string, now: string): (r: Result<(Db, Value)>)
    ensures r.Ok? <==> ParsePriority(CleanPriority(priority)).Some? && HasCustomer(db, id)
    ensures ParsePriority(CleanPriority(priority)).None? ==> r == Err(PriorityError)
    ensures ParsePriority(CleanPriority(priority)).Some? && !HasCustomer(db, id) ==> r == Err("Customer does not exist.")
    ensures r.Ok? ==> At(r.value.1, "customer_id") == Num(id) && At(r.value.1, "id") == Num(db.nextTicketId) &&
                      At(r.value.1, "status") == Str("open") && At(r.value.1, "priority") == Str(CleanPriority(priority)) &&
                      At(r.value.1, "issue") == Str(issue)
    ensures r.Ok? ==> var db' := r.value.0;
              db'.customers == db.customers && db'.nextTicketId > db.nextTicketId &&
              |db'.tickets| == |db.tickets| + 1 && db'.tickets[..|db.tickets|] == db.tickets &&
              r.value.1 == TicketValue(db'.tickets[|db.tickets|])
  {
    var p := CleanPriority(priority);
    match AddTicket(db, id, issue, p, now)
    case Err(e) => Err(e)
    case Ok((db', t)) => Ok((db', TicketValue(t)))
  }

  /** `get_customer_history`: `{"customer": row, "tickets": rows}`. */
  function GetCustomerHistory(db: Db, id: int): (r: Result<Value>)
    ensures r.Ok? <==> HasCustomer(db, id)
    ensures r.Ok? ==> r.value.Obj? && r.value.fields.Keys == {"customer", "tickets"} &&
                      At(At(r.value, "customer"), "id") == Num(id)
    ensures r.Ok? ==> At(r.value, "tickets").Arr? &&
                      forall i :: 0 <= i < |At(r.value, "tickets").items| ==>
                        At(At(r.value, "tickets").items[i], "customer_id") == Num(id)
    ensures r.Ok? ==> At(r.value, "customer") == CustomerValue(FetchCustomer(db, id).value)
    ensures r.Ok? ==> forall t :: t in db.tickets && t.customerId == id ==> TicketValue(t) in At(r.value, "tickets").items
    ensures r.Ok? ==> forall i :: 0 <= i < |At(r.value, "tickets").items| ==>
                        exists t :: t in db.tickets && t.customerId == id && At(r.value, "tickets").items[i] == TicketValue(t)
  {
    match FetchCustomerHistory(db, id)
    case Err(e) => Err(e)
    case Ok((c, ts)) =>
      HistoryDocument(c, ts);
      TicketRowsListAll(ts);
      HistoryTicketsSound(db, id, ts);
      Ok(HistoryValue(c, ts))
  }

  /** The document of a customer with its tickets. */
  function HistoryValue(c: Customer, ts: seq<Ticket>): Value {
    Obj(map["customer" := CustomerValue(c), "tickets" := TicketRows(ts)])
  }

  lemma HistoryDocument(c: Customer, ts: seq<Ticket>)
    requires forall t :: t in ts ==> t.customerId == c.id
    ensures var v := HistoryValue(c, ts);
            v.Obj? && v.fields.Keys == {"customer", "tickets"} && At(v, "customer") == CustomerValue(c) &&
            At(At(v, "customer"), "id") == Num(c.id) && At(v, "tickets").Arr? &&
            forall i :: 0 <= i < |At(v, "tickets").items| ==> At(At(v, "tickets").items[i], "customer_id") == Num(c.id)
    ensures At(HistoryValue(c, ts), "tickets") == TicketRows(ts)
  {
    assert forall i :: 0 <= i < |ts| ==> ts[i] in ts;
  }

  /** `list_tickets`: truthy filters are lower-cased (not stripped). */
  function ListTickets(db: Db, ids: seq<int>, status: Option<string>, priority: Option<string>): (r: Result<Value>)
    ensures ids == [] ==> r == Ok(Arr([]))
    ensures ids != [] && status.Some? && status.value != [] && ParseTicketStatus(Lower(status.value)).None? ==>
              r == Err("Invalid ticket status.")
    ensures ids != [] && (status.None? || status.value == [] || ParseTicketStatus(Lower(status.value)).Some?) &&
            priority.Some? && priority.value != [] && ParsePriority(Lower(priority.value)).None? ==>
              r == Err("Invalid ticket priority.")
    ensures r.Ok? <==> ids == [] ||
                       ((status.None? || status.value == [] || ParseTicketStatus(Lower(status.value)).Some?) &&
                        (priority.None? || priority.value == [] || ParsePriority(Lower(priority.value)).Some?))
    ensures r.Ok? ==> r.value.Arr?
    ensures r.Ok? ==> forall t :: t in db.tickets && TicketMatches(t, ids, LowerTruthy(status), LowerTruthy(priority)) ==>
                        TicketValue(t) in r.value.items
    ensures r.Ok? ==> forall i :: 0 <= i < |r.value.items| ==>
                        exists t :: t in db.tickets && TicketMatches(t, ids, LowerTruthy(status), LowerTruthy(priority)) &&
                                    r.value.items[i] == TicketValue(t)
    ensures r.Ok? ==> forall i :: 0 <= i < |r.value.items| ==>
                        At(r.value.items[i], "customer_id") in NumSet(ids)
  {
    LoweredFilter(status, ParseTicketStatus, "Invalid ticket status.");
    LoweredFilter(priority, ParsePriority, "Invalid ticket priority.");
    match FetchTickets(db, ids, LowerTruthy(status), LowerTruthy(priority))
    case Err(e) => Err(e)
    case Ok(ts) =>
      MatchedTicketRows(db.tickets, ids, LowerTruthy(status), LowerTruthy(priority));
      Ok(TicketRows(ts))
  }

  /** A lower-cased filter is rejected exactly when its lower-cased text
      names no value. */
  lemma LoweredFilter<T>(given: Option<string>, parse: string -> Option<T>, error: string)
    ensures FilterArg(LowerTruthy(given), parse, error).Ok? <==>
              given.None? || given.value == [] || parse(Lower(given.value)).Some?
    ensures FilterArg(LowerTruthy(given), parse, error).Err? ==> FilterArg(LowerTruthy(given), parse, error) == Err(error)
  {
    if given.Some? && given.value != [] {
      assert |Lower(given.value)| == |given.value|;
    }
  }

  /** The documents of the matching tickets are exactly those of tickets
      that match. */
  lemma MatchedTicketRows(tickets: seq<Ticket>, ids: seq<int>, status: Option<string>, priority: Option<string>)
    ensures var v := TicketRows(MatchingTickets(tickets, ids, status, priority));
            (forall t :: t in tickets && TicketMatches(t, ids, status, priority) ==> TicketValue(t) in v.items) &&
            (forall i :: 0 <= i < |v.items| ==>
               exists t :: t in tickets && TicketMatches(t, ids, status, priority) && v.items[i] == TicketValue(t)) &&
            (forall i :: 0 <= i < |v.items| ==> At(v.items[i], "customer_id") in NumSet(ids))
  {
    var ts := MatchingTickets(tickets, ids, status, priority);
    TicketRowsListAll(ts);
    MatchedTicketRowsSound(tickets, ids, status, priority);
  }

  /** Every document listed is that of a matching ticket. */
  lemma MatchedTicketRowsSound(tickets: seq<Ticket>, ids: seq<int>, status: Option<string>, priority: Option<string>)
    ensures var v := TicketRows(MatchingTickets(tickets, ids, status, priority));
            forall i :: 0 <= i < |v.items| ==>
              (exists t :: t in tickets && TicketMatches(t, ids, status, priority) && v.items[i] == TicketValue(t)) &&
              At(v.items[i], "customer_id") in NumSet(ids)
  {
    var ts := MatchingTickets(tickets, ids, status, priority);
    var v := TicketRows(ts);
    forall i | 0 <= i < |v.items|
      ensures exists t :: t in tickets && TicketMatches(t, ids, status, priority) && v.items[i] == TicketValue(t)
      ensures At(v.items[i], "customer_id") in NumSet(ids)
    {
      assert ts[i] in ts;
    }
  }

  /** Every document in a customer's ticket listing is that of one of
      the customer's tickets in the table. */
  lemma HistoryTicketsSound(db: Db, id: int, ts: seq<Ticket>)
    requires forall t :: t in ts ==> t in db.tickets && t.customerId == id
    ensures var v := TicketRows(ts);
            forall i :: 0 <= i < |v.items| ==>
              At(v.items[i], "customer_id") == Num(id) &&
              exists t :: t in db.tickets && t.customerId == id && v.items[i] == TicketValue(t)
  {
    var v := TicketRows(ts);
    forall i | 0 <= i < |v.items|
      ensures At(v.items[i], "customer_id") == Num(id)
      ensures exists t :: t in db.tickets && t.customerId == id && v.items[i] == TicketValue(t)
    {
      assert ts[i] in ts;
    }
  }

  /** Every ticket of `ts` has its document in the listing. */
  lemma TicketRowsListAll(ts: seq<Ticket>)
    ensures forall t :: t in ts ==> TicketValue(t) in TicketRows(ts).items
  {
    forall t | t in ts
      ensures TicketValue(t) in TicketRows(ts).items
    {
      var i :| 0 <= i < |ts| && ts[i] == t;
      assert TicketRows(ts).items[i] == TicketValue(t);
    }
  }

  /** The customer ids as JSON numbers. */
  function NumSet(ids: seq<int>): (r: set<Value>)
    ensures forall n :: Num(n) in r <==> n in ids
  {
    set n | n in ids :: Num(n)
  }

  // ---------------------------------------------------------------------
  // Properties of the normalisation
  // ---------------------------------------------------------------------

  /** `pre + core + post` lower-cases to the lowered core between the
      same whitespace. */
  lemma LowerPadded(pre: string, core: string, post: string)
    requires forall k :: 0 <= k < |pre| ==> IsSpace(pre[k])
    requires forall k :: 0 <= k < |post| ==> IsSpace(post[k])
    ensures Lower(pre + core + post) == pre + Lower(core) + post
  {
    LowerConcat(pre + core, post);
    LowerConcat(pre, core);
    LowerOfLowercase(pre);
    LowerOfLowercase(post);
  }

  /** A non-empty text with no whitespace at either end. */
  predicate Trimmed(w: string) {
    w != [] && !IsSpace(w[0]) && !IsSpace(w[|w| - 1])
  }

  /** Every word of a vocabulary starts and ends with a letter. */
  lemma WordsAreTrimmed()
    ensures forall w :: w in StatusWords ==> Trimmed(w)
    ensures forall w :: w in TierWords ==> Trimmed(w)
    ensures forall p :: Trimmed(PriorityName(p))
  {
    forall p
      ensures Trimmed(PriorityName(p))
    {
      match p
      case Low =>
      case Medium =>
      case High =>
    }
  }

  /** A truthy filter that is a vocabulary word in some casing, padded with
      whitespace, cleans to that word. */
  lemma CleansToWord(pre: string, x: string, post: string, words: set<string>)
    requires forall k :: 0 <= k < |pre| ==> IsSpace(pre[k])
    requires forall k :: 0 <= k < |post| ==> IsSpace(post[k])
    requires forall w :: w in words ==> Trimmed(w)
    requires Lower(x) in words
    ensures NormalizeChoice(Some(pre + x + post), words) == Some(Lower(x))
  {
    PaddedWordCleans(pre, x, post);
  }

  /** Lower-casing and stripping a padded word leaves the lowered word. */
  lemma PaddedWordCleans(pre: string, x: string, post: string)
    requires forall k :: 0 <= k < |pre| ==> IsSpace(pre[k])
    requires forall k :: 0 <= k < |post| ==> IsSpace(post[k])
    requires Trimmed(Lower(x))
    ensures pre + x + post != [] && Strip(Lower(pre + x + post)) == Lower(x)
  {
    LowerPadded(pre, x, post);
    StripSurrounded(pre, Lower(x), post);
    assert |pre + x + post| >= |x| > 0;
  }

  /** The listing's status filter ignores case and surrounding whitespace:
      any padding and casing of a status word lists what the word lists. */
  lemma ListingIgnoresCaseAndSpace(db: Db, pre: string, x: string, post: string, tier: Option<string>, limit: Option<int>)
    requires forall k :: 0 <= k < |pre| ==> IsSpace(pre[k])
    requires forall k :: 0 <= k < |post| ==> IsSpace(post[k])
    requires Lower(x) in StatusWords
    ensures ListCustomers(db, Some(pre + x + post), tier, limit) == ListCustomers(db, Some(Lower(x)), tier, limit)
  {
    WordsAreTrimmed();
    CleansToWord(pre, x, post, StatusWords);
    LowerIdempotent(x);
    StripOfTrimmed(Lower(x));
    assert NormalizeChoice(Some(Lower(x)), StatusWords) == Some(Lower(x));
  }

  /** An unknown status word is dropped: the listing is then unfiltered by
      status rather than an error. */
  lemma UnknownStatusIsDropped(db: Db, word: string, tier: Option<string>, limit: Option<int>)
    requires word != [] && Strip(Lower(word)) !in StatusWords
    ensures ListCustomers(db, Some(word), tier, limit) == ListCustomers(db, None, tier, limit)
  {
  }

  /** The update path lower-cases but does not strip: a status with
      leading whitespace, which the listing would accept, is rejected by an
      update. */
  lemma UpdateDoesNotStrip(db: Db, id: int, pre: string, x: string, now: string)
    requires pre != [] && forall k :: 0 <= k < |pre| ==> IsSpace(pre[k])
    ensures UpdateCustomer(db, id, map["status" := Str(pre + x)], ["status"], now) == Err(Store.StatusError)
  {
    LowerConcat(pre, x);
    LowerOfLowercase(pre);
    var l := Lower(pre + x);
    assert l[0] == pre[0] && IsSpace(l[0]);
    assert ParseStatus(l).None? by {
      assert "active"[0] == 'a' && "disabled"[0] == 'd';
    }
  }

  /** A priority in any casing, padded with whitespace, files a ticket of
      that priority. */
  lemma PriorityIsCleaned(db: Db, id: int, issue: string, pre: string, x: string, post: string, now: string)
    requires forall k :: 0 <= k < |pre| ==> IsSpace(pre[k])
    requires forall k :: 0 <= k < |post| ==> IsSpace(post[k])
    requires ParsePriority(Lower(x)).Some? && HasCustomer(db, id)
    ensures CreateTicket(db, id, issue, pre + x + post, now).Ok?
    ensures At(CreateTicket(db, id, issue, pre + x + post, now).value.1, "priority") == Str(Lower(x))
  {
    WordsAreTrimmed();
    assert PriorityName(ParsePriority(Lower(x)).value) == Lower(x);
    PaddedWordCleans(pre, x, post);
  }

  /** Ticket filters are lower-cased but, unlike the customer filters, not
      stripped: a padded status word is rejected. */
  lemma TicketListingDoesNotStrip(db: Db, ids: seq<int>, pre: string, x: string)
    requires ids != []
    requires pre != [] && forall k :: 0 <= k < |pre| ==> IsSpace(pre[k])
    ensures ListTickets(db, ids, Some(pre + x), None) == Err("Invalid ticket status.")
  {
    LowerConcat(pre, x);
    LowerOfLowercase(pre);
    var l := Lower(pre + x);
    assert l[0] == pre[0] && IsSpace(l[0]);
    assert ParseTicketStatus(l).None? by {
      assert "open"[0] == 'o' && "in_progress"[0] == 'i' && "resolved"[0] == 'r';
    }
  }

  /** Ticket filters ignore case. */
  lemma TicketListingIgnoresCase(db: Db, ids: seq<int>, status: string, priority: string)
    ensures ListTickets(db, ids, Some(status), Some(priority)) ==
            ListTickets(db, ids, Some(Lower(status)), Some(Lower(priority)))
  {
    LowerIdempotent(status);
    LowerIdempotent(priority);
  }

  /** The listing with the tool's default limit returns at most ten rows. */
  lemma DefaultListingIsBounded(db: Db, status: Option<string>, tier: Option<string>)
    ensures |ListCustomers(db, status, tier, Some(DefaultLimit)).value.items| <= 10
  {
  }
}
