/** The customer and ticket tables and their operations
    (mcp_server/db_utils.py), over in-memory tables in row order. The
    column vocabularies are those of the table definitions in
    mcp_server/database_setup.py. */
module Store {
  import opened Wrappers
  import opened Text
  import opened Json

  // ---------------------------------------------------------------------
  // Vocabularies
  // ---------------------------------------------------------------------

  datatype CustomerStatus = Active | Disabled
  datatype Tier = Standard | Premium | Enterprise
  datatype TicketStatus = Open | InProgress | Resolved
  datatype Priority = Low | Medium | High

  function StatusName(s: CustomerStatus): string {
    match s
    case Active => "active"
    case Disabled => "disabled"
  }

  function TierName(t: Tier): string {
    match t
    case Standard => "standard"
    case Premium => "premium"
    case Enterprise => "enterprise"
  }

  function TicketStatusName(s: TicketStatus): string {
    match s
    case Open => "open"
    case InProgress => "in_progress"
    case Resolved => "resolved"
  }

  function PriorityName(p: Priority): string {
    match p
    case Low => "low"
    case Medium => "medium"
    case High => "high"
  }

  /** The stored spelling of a customer status, read back; the match is
      exact (case and surrounding spaces count). */
  function ParseStatus(text: string): (r: Option<CustomerStatus>)
    ensures r.Some? ==> StatusName(r.value) == text
    ensures r.None? ==> forall s: CustomerStatus :: StatusName(s) != text
  {
    if text == "active" then Some(Active)
    else if text == "disabled" then Some(Disabled)
    else None
  }

  function ParseTier(text: string): (r: Option<Tier>)
    ensures r.Some? ==> TierName(r.value) == text
    ensures r.None? ==> forall t: Tier :: TierName(t) != text
  {
    if text == "standard" then Some(Standard)
    else if text == "premium" then Some(Premium)
    else if text == "enterprise" then Some(Enterprise)
    else None
  }

  function ParseTicketStatus(text: string): (r: Option<TicketStatus>)
    ensures r.Some? ==> TicketStatusName(r.value) == text
    ensures r.None? ==> forall s: TicketStatus :: TicketStatusName(s) != text
  {
    if text == "open" then Some(Open)
    else if text == "in_progress" then Some(InProgress)
    else if text == "resolved" then Some(Resolved)
    else None
  }

  function ParsePriority(text: string): (r: Option<Priority>)
    ensures r.Some? ==> PriorityName(r.value) == text
    ensures r.None? ==> forall p: Priority :: PriorityName(p) != text
  {
    if text == "low" then Some(Low)
    else if text == "medium" then Some(Medium)
    else if text == "high" then Some(High)
    else None
  }

  /** Every vocabulary word reads back as itself. */
  lemma VocabularyRoundTrip(s: CustomerStatus, t: Tier, ts: TicketStatus, p: Priority)
    ensures ParseStatus(StatusName(s)) == Some(s)
    ensures ParseTier(TierName(t)) == Some(t)
    ensures ParseTicketStatus(TicketStatusName(ts)) == Some(ts)
    ensures ParsePriority(PriorityName(p)) == Some(p)
  {
  }

  // ---------------------------------------------------------------------
  // Rows and tables
  // ---------------------------------------------------------------------

  datatype Customer = Customer(
    id: int, name: string, email: Option<string>, phone: Option<string>,
    status: CustomerStatus, tier: Tier, billingInfo: Option<string>,
    createdAt: string, updatedAt: string)

  datatype Ticket = Ticket(
    id: int, customerId: int, issue: string, status: TicketStatus, priority: Priority, createdAt: string)

  /** The database: both tables in row order, and the id the next ticket
      receives (`AUTOINCREMENT` never reuses an id). */
  datatype Db = Db(customers: seq<Customer>, tickets: seq<Ticket>, nextTicketId: int)

  predicate HasCustomer(db: Db, id: int) {
    exists j :: 0 <= j < |db.customers| && db.customers[j].id == id
  }

  /** The primary keys are unique, every ticket's customer exists (the
      foreign key), and every ticket id is below the next one. */
  predicate Consistent(db: Db) {
    (forall i, j :: 0 <= i < j < |db.customers| ==> db.customers[i].id != db.customers[j].id) &&
    (forall i, j :: 0 <= i < j < |db.tickets| ==> db.tickets[i].id != db.tickets[j].id) &&
    (forall i :: 0 <= i < |db.tickets| ==> db.tickets[i].id < db.nextTicketId && HasCustomer(db, db.tickets[i].customerId))
  }

  /** The position of the row with key `id`, looking from `from` on. */
  function FindCustomer(cs: seq<Customer>, id: int, from: nat): (r: Option<nat>)
    requires from <= |cs|
    ensures r.Some? ==> from <= r.value < |cs| && cs[r.value].id == id
    ensures r.Some? ==> forall j :: from <= j < r.value ==> cs[j].id != id
    ensures r.None? ==> forall j :: from <= j < |cs| ==> cs[j].id != id
    decreases |cs| - from
  {
    if from == |cs| then None
    else if cs[from].id == id then Some(from)
    else FindCustomer(cs, id, from + 1)
  }

  /** `fetch_customer`: the row with that key, or `None`. */
  function FetchCustomer(db: Db, id: int): (r: Option<Customer>)
    ensures r.Some? <==> HasCustomer(db, id)
    ensures r.Some? ==> r.value.id == id && r.value in db.customers
  {
    match FindCustomer(db.customers, id, 0)
    case Some(j) => Some(db.customers[j])
    case None => None
  }

  // ---------------------------------------------------------------------
  // Listing
  // ---------------------------------------------------------------------

  /** The rows of `xs` that satisfy `keep`, in their order. */
  function Filter<T(!new)>(xs: seq<T>, keep: T -> bool): (r: seq<T>)
    ensures |r| <= |xs|
    ensures forall x :: x in r <==> x in xs && keep(x)
    ensures (forall x :: x in xs ==> !keep(x)) ==> r == []
    decreases |xs|
  {
    if xs == [] then []
    else if keep(xs[0]) then [xs[0]] + Filter(xs[1..], keep)
    else Filter(xs[1..], keep)
  }

  /** Filtering keeps row order: it distributes over concatenation, so the
      kept rows of an earlier part come before those of a later part. */
  lemma {:induction false} FilterConcat<T(!new)>(xs: seq<T>, ys: seq<T>, keep: T -> bool)
    ensures Filter(xs + ys, keep) == Filter(xs, keep) + Filter(ys, keep)
    decreases |xs|
  {
    if xs == [] {
      assert xs + ys == ys;
    } else {
      assert (xs + ys)[1..] == xs[1..] + ys;
      FilterConcat(xs[1..], ys, keep);
    }
  }

  /** Two tests that agree on every row keep the same rows. */
  lemma {:induction false} FilterAgrees<T(!new)>(xs: seq<T>, f: T -> bool, g: T -> bool)
    requires forall x :: x in xs ==> f(x) == g(x)
    ensures Filter(xs, f) == Filter(xs, g)
    decreases |xs|
  {
    if xs != [] {
      assert forall x :: x in xs[1..] ==> x in xs;
      FilterAgrees(xs[1..], f, g);
    }
  }

  /** A filter argument: absent or empty means no filter; otherwise it must
      name a vocabulary word, or the operation fails with `error`. */
  function FilterArg<T>(given: Option<string>, parse: string -> Option<T>, error: string): (r: Result<Option<T>>)
    ensures given.None? || given.value == [] ==> r == Ok(None)
    ensures given.Some? && given.value != [] && parse(given.value).Some? ==> r == Ok(parse(given.value))
    ensures given.Some? && given.value != [] && parse(given.value).None? ==> r == Err(error)
  {
    if given.None? || given.value == [] then Ok(None)
    else match parse(given.value)
      case Some(t) => Ok(Some(t))
      case None => Err(error)
  }

  const StatusError: string := "Status must be 'active' or 'disabled'."
  const TierError: string := "Tier must be one of 'standard', 'premium', 'enterprise'."
  const PriorityError: string := "Priority must be one of 'low', 'medium', 'high'."

  /** `LIMIT n` when `n` is truthy; SQLite reads a negative limit as none. */
  function Limit<T>(rows: seq<T>, limit: Option<int>): (r: seq<T>)
    ensures limit.Some? && limit.value > 0 ==> |r| == if |rows| < limit.value then |rows| else limit.value
    ensures !(limit.Some? && limit.value > 0) ==> r == rows
    ensures r <= rows
  {
    if limit.Some? && limit.value > 0 && limit.value < |rows| then rows[..limit.value] else rows
  }

  /** A row passes the listing's filters: an absent or empty filter passes
      every row, and any other must be the row's stored word. */
  predicate CustomerMatches(c: Customer, status: Option<string>, tier: Option<string>) {
    (status.None? || status.value == [] || StatusName(c.status) == status.value) &&
    (tier.None? || tier.value == [] || TierName(c.tier) == tier.value)
  }

  /** The rows that pass the filters, in row order. */
  function MatchingCustomers(cs: seq<Customer>, status: Option<string>, tier: Option<string>): (r: seq<Customer>)
    ensures forall c :: c in r <==> c in cs && CustomerMatches(c, status, tier)
  {
    Filter(cs, (c: Customer) => CustomerMatches(c, status, tier))
  }

  /** `fetch_customers`: the filters are validated, status first; the result
      is the matching rows in row order, cut to the first `limit` of them
      when `limit` is positive. */
  function FetchCustomers(db: Db, status: Option<string>, tier: Option<string>, limit: Option<int>): (r: Result<seq<Customer>>)
    ensures FilterArg(status, ParseStatus, StatusError).Err? ==> r == Err(StatusError)
    ensures FilterArg(status, ParseStatus, StatusError).Ok? && FilterArg(tier, ParseTier, TierError).Err? ==>
              r == Err(TierError)
    ensures r.Ok? <==> FilterArg(status, ParseStatus, StatusError).Ok? && FilterArg(tier, ParseTier, TierError).Ok?
    ensures r.Ok? ==> r.value == Limit(MatchingCustomers(db.customers, status, tier), limit)
    ensures r.Ok? ==> forall c :: c in r.value ==> c in db.customers && CustomerMatches(c, status, tier)
    ensures r.Ok? && !(limit.Some? && limit.value > 0) ==>
              forall c :: c in db.customers && CustomerMatches(c, status, tier) ==> c in r.value
    ensures r.Ok? && limit.Some? && limit.value > 0 ==> |r.value| <= limit.value
  {
    match FilterArg(status, ParseStatus, StatusError)
    case Err(e) => Err(e)
    case Ok(sf) =>
      match FilterArg(tier, ParseTier, TierError)
      case Err(e) => Err(e)
      case Ok(tf) =>
        var keep := (c: Customer) => (sf.None? || c.status == sf.value) && (tf.None? || c.tier == tf.value);
        ParsedCustomerFilters(db.customers, status, tier, sf, tf, keep);
        Ok(Limit(Filter(db.customers, keep), limit))
  }

  /** The test on parsed filter values keeps the rows whose stored words
      match the given filters. */
  lemma ParsedCustomerFilters(cs: seq<Customer>, status: Option<string>, tier: Option<string>,
                              sf: Option<CustomerStatus>, tf: Option<Tier>, keep: Customer -> bool)
    requires FilterArg(status, ParseStatus, StatusError) == Ok(sf)
    requires FilterArg(tier, ParseTier, TierError) == Ok(tf)
    requires forall c :: keep(c) == ((sf.None? || c.status == sf.value) && (tf.None? || c.tier == tf.value))
    ensures Filter(cs, keep) == MatchingCustomers(cs, status, tier)
  {
    forall c | c in cs
      ensures keep(c) == CustomerMatches(c, status, tier)
    {
      NamesAreExact(c.status, if sf.Some? then sf.value else c.status, c.tier, if tf.Some? then tf.value else c.tier);
    }
    FilterAgrees(cs, keep, (c: Customer) => CustomerMatches(c, status, tier));
  }

  /** Two values of a vocabulary are equal exactly when their words are. */
  lemma NamesAreExact(s1: CustomerStatus, s2: CustomerStatus, t1: Tier, t2: Tier)
    ensures s1 == s2 <==> StatusName(s1) == StatusName(s2)
    ensures t1 == t2 <==> TierName(t1) == TierName(t2)
  {
  }

  // ---------------------------------------------------------------------
  // Updating a customer
  // ---------------------------------------------------------------------

  const AllowedKeys: set<string> := {"name", "email", "phone", "status", "tier", "billing_info"}

  /** The range of SQLite's INTEGER, a signed 64-bit value. */
  const Int64Min: int := -0x8000_0000_0000_0000
  const Int64Max: int := 0x7FFF_FFFF_FFFF_FFFF

  predicate InInt64(n: int) {
    Int64Min <= n <= Int64Max
  }

  /** The `OverflowError` of binding an integer outside 64 bits. */
  const IntTooLarge: string := "Python int too large to convert to SQLite INTEGER"

  /** How SQLite stores a bound parameter in a TEXT column: text as is,
      integers and booleans as their decimal text, `None` as NULL; lists
      and dictionaries cannot be bound, nor integers outside 64 bits. */
  function TextColumn(v: Value): (r: Result<Option<string>>)
    ensures v.Str? ==> r == Ok(Some(v.s))
    ensures v.Null? ==> r == Ok(None)
    ensures v.Num? && !InInt64(v.n) ==> r == Err(IntTooLarge)
    ensures v.Num? && InInt64(v.n) ==> r == Ok(Some(IntToString(v.n)))
    ensures r.Err? <==> v.Arr? || v.Obj? || (v.Num? && !InInt64(v.n))
  {
    match v
    case Null => Ok(None)
    case Str(s) => Ok(Some(s))
    case Num(n) =>
      if InInt64(n) then Ok(Some(IntToString(n)))
      else Err(IntTooLarge)
    case Bool(b) => Ok(Some(if b then "1" else "0"))
    case _ => Err("Error binding parameter: type '" + TypeName(v) + "' is not supported")
  }

  /** A text field of an update, or the row's current value when the
      update does not name it. */
  function TextUpdate(data: map<string, Value>, key: string, current: Option<string>): (r: Result<Option<string>>)
    ensures key !in data ==> r == Ok(current)
    ensures key in data ==> (r.Err? <==> data[key].Arr? || data[key].Obj? || (data[key].Num? && !InInt64(data[key].n)))
    ensures key in data && data[key].Str? ==> r == Ok(Some(data[key].s))
    ensures key in data && data[key].Null? ==> r == Ok(None)
  {
    if key in data then TextColumn(data[key]) else Ok(current)
  }

  /** The first key of `order` for which `bad` holds. */
  function FirstWhere(order: seq<string>, bad: string -> bool): (r: Option<string>)
    ensures r.Some? ==> exists i :: 0 <= i < |order| && order[i] == r.value && bad(order[i]) &&
                          forall j :: 0 <= j < i ==> !bad(order[j])
    ensures r.None? <==> forall k :: k in order ==> !bad(k)
  {
    if order == [] then None
    else if bad(order[0]) then Some(order[0])
    else
      var rest := FirstWhere(order[1..], bad);
      if rest.Some? then
        ghost var i :| 0 <= i < |order| - 1 && order[1..][i] == rest.value && bad(order[1..][i]) &&
                       forall j :: 0 <= j < i ==> !bad(order[1..][j]);
        assert order[i + 1] == rest.value;
        assert forall j :: 1 <= j < i + 1 ==> order[j] == order[1..][j - 1];
        rest
      else
        assert forall k :: k in order ==> k == order[0] || k in order[1..];
        rest
  }

  /** The first key of `order` outside the allowed set. */
  function FirstInvalidKey(order: seq<string>): (r: Option<string>)
    ensures r.Some? ==> r.value in order && r.value !in AllowedKeys
    ensures r.Some? ==> exists i :: 0 <= i < |order| && order[i] == r.value &&
                          forall j :: 0 <= j < i ==> order[j] in AllowedKeys
    ensures r.None? <==> forall k :: k in order ==> k in AllowedKeys
  {
    FirstWhere(order, k => k !in AllowedKeys)
  }

  /** The first value, in the update's key order, that SQLite cannot bind
      (`list(data.values())` is bound in that order). */
  function FirstUnbindable(data: map<string, Value>, order: seq<string>): (r: Option<string>)
    ensures r.Some? ==> r.value in data && TextColumn(data[r.value]).Err?
    ensures r.Some? ==> exists i :: 0 <= i < |order| && order[i] == r.value &&
                          forall j :: 0 <= j < i ==> !(order[j] in data && TextColumn(data[order[j]]).Err?)
    ensures r.None? <==> forall k :: k in order && k in data ==> TextColumn(data[k]).Ok?
  {
    FirstWhere(order, k => k in data && TextColumn(data[k]).Err?)
  }

  /** The status and tier of an update, when given, are stored words. */
  predicate ValidChoices(data: map<string, Value>) {
    ("status" in data ==> data["status"].Str? && ParseStatus(data["status"].s).Some?) &&
    ("tier" in data ==> data["tier"].Str? && ParseTier(data["tier"].s).Some?)
  }

  const NameNotNull: string := "NOT NULL constraint failed: customers.name"

  /** The row after the update; the checks on keys and vocabularies have
      been passed. Binding fails on the first unbindable value in key order;
      a bound `None` name then fails the NOT NULL constraint. */
  function ApplyUpdate(c: Customer, data: map<string, Value>, order: seq<string>, now: string): (r: Result<Customer>)
    requires forall k :: k in data <==> k in order
    requires ValidChoices(data)
    ensures FirstUnbindable(data, order).Some? ==> r == Err(TextColumn(data[FirstUnbindable(data, order).value]).error)
    ensures FirstUnbindable(data, order).None? && "name" in data && data["name"].Null? ==> r == Err(NameNotNull)
    ensures r.Ok? <==> FirstUnbindable(data, order).None? && !("name" in data && data["name"].Null?)
    ensures r.Ok? ==> r.value.id == c.id && r.value.createdAt == c.createdAt && r.value.updatedAt == now
    ensures r.Ok? ==> ("status" in data ==> StatusName(r.value.status) == data["status"].s) &&
                      ("status" !in data ==> r.value.status == c.status)
    ensures r.Ok? ==> ("tier" in data ==> TierName(r.value.tier) == data["tier"].s) &&
                      ("tier" !in data ==> r.value.tier == c.tier)
    ensures r.Ok? ==> ("name" in data ==> TextColumn(data["name"]) == Ok(Some(r.value.name))) &&
                      ("name" !in data ==> r.value.name == c.name)
    ensures r.Ok? ==> ("email" in data ==> TextColumn(data["email"]) == Ok(r.value.email)) &&
                      ("email" !in data ==> r.value.email == c.email)
    ensures r.Ok? ==> ("phone" in data ==> TextColumn(data["phone"]) == Ok(r.value.phone)) &&
                      ("phone" !in data ==> r.value.phone == c.phone)
    ensures r.Ok? ==> ("billing_info" in data ==> TextColumn(data["billing_info"]) == Ok(r.value.billingInfo)) &&
                      ("billing_info" !in data ==> r.value.billingInfo == c.billingInfo)
  {
    match FirstUnbindable(data, order)
    case Some(k) => Err(TextColumn(data[k]).error)
    case None =>
      var name := TextUpdate(data, "name", Some(c.name));
      var email := TextUpdate(data, "email", c.email);
      var phone := TextUpdate(data, "phone", c.phone);
      var billing := TextUpdate(data, "billing_info", c.billingInfo);
      if name.value.None? then Err(NameNotNull)
      else
        var status := if "status" in data then ParseStatus(data["status"].s).value else c.status;
        var tier := if "tier" in data then ParseTier(data["tier"].s).value else c.tier;
        Ok(Customer(c.id, name.value.value, email.value, phone.value, status, tier, billing.value, c.createdAt, now))
  }

  /** An integer one past SQLite's range is not stored: the update fails
      with the binding's `OverflowError`, while the largest 64-bit value is
      stored as its decimal text. */
  lemma OversizedNumberNotBound(c: Customer, now: string)
    ensures ApplyUpdate(c, map["phone" := Num(Int64Max + 1)], ["phone"], now) == Err(IntTooLarge)
    ensures ApplyUpdate(c, map["phone" := Num(Int64Max)], ["phone"], now).Ok?
    ensures ApplyUpdate(c, map["phone" := Num(Int64Max)], ["phone"], now).value.phone == Some(IntToString(Int64Max))
  {
    assert FirstUnbindable(map["phone" := Num(Int64Max + 1)], ["phone"]) == Some("phone");
    assert FirstUnbindable(map["phone" := Num(Int64Max)], ["phone"]).None?;
  }

  /** `modify_customer`, where `order` is the update's keys in the order
      the dictionary iterates them. The checks run in the source's order
      (field names, status, tier, existence, then the statement itself,
      which is malformed when nothing is to be set, then binding); on
      success only that row changes, to the stored row updated by `data`. */
  function ModifyCustomer(db: Db, id: int, data: map<string, Value>, order: seq<string>, now: string): (r: Result<(Db, Customer)>)
    requires forall k :: k in data <==> k in order
    ensures FirstInvalidKey(order).Some? ==> r == Err("Invalid update field: " + FirstInvalidKey(order).value)
    ensures data.Keys <= AllowedKeys && "status" in data && !(data["status"].Str? && ParseStatus(data["status"].s).Some?) ==>
              r == Err(StatusError)
    ensures data.Keys <= AllowedKeys && ("status" in data ==> data["status"].Str? && ParseStatus(data["status"].s).Some?) &&
            "tier" in data && !(data["tier"].Str? && ParseTier(data["tier"].s).Some?) ==>
              r == Err(TierError)
    ensures data.Keys <= AllowedKeys && ValidChoices(data) && !HasCustomer(db, id) ==> r == Err("Customer not found.")
    ensures data.Keys <= AllowedKeys && ValidChoices(data) && HasCustomer(db, id) && data == map[] ==>
              r == Err("near \",\": syntax error")
    ensures data.Keys <= AllowedKeys && ValidChoices(data) && HasCustomer(db, id) && data != map[] ==>
              var u := ApplyUpdate(FetchCustomer(db, id).value, data, order, now);
              (r.Ok? <==> u.Ok?) && (u.Err? ==> r == Err(u.error)) && (u.Ok? ==> r.value.1 == u.value)
    ensures r.Ok? ==> HasCustomer(db, id) && data != map[] && data.Keys <= AllowedKeys && ValidChoices(data)
    ensures r.Ok? ==> var (db', row) := r.value;
              db'.tickets == db.tickets && db'.nextTicketId == db.nextTicketId &&
              |db'.customers| == |db.customers| && row.id == id && row.updatedAt == now &&
              forall j :: 0 <= j < |db.customers| ==>
                db'.customers[j] == (if db.customers[j].id == id then row else db.customers[j])
    ensures r.Ok? && "status" in data ==> data["status"].Str? && StatusName(r.value.1.status) == data["status"].s
    ensures r.Ok? && "tier" in data ==> data["tier"].Str? && TierName(r.value.1.tier) == data["tier"].s
  {
    if FirstInvalidKey(order).Some? then Err("Invalid update field: " + FirstInvalidKey(order).value)
    else if "status" in data && !(data["status"].Str? && ParseStatus(data["status"].s).Some?) then Err(StatusError)
    else if "tier" in data && !(data["tier"].Str? && ParseTier(data["tier"].s).Some?) then Err(TierError)
    else
      match FindCustomer(db.customers, id, 0)
      case None => Err("Customer not found.")
      case Some(j) =>
        if data == map[] then Err("near \",\": syntax error")
        else
          match ApplyUpdate(db.customers[j], data, order, now)
          case Err(e) => Err(e)
          case Ok(row) => Ok((db.(customers := ReplaceKey(db.customers, id, row)), row))
  }

  /** Every row with key `id` replaced by `row`. */
  function ReplaceKey(cs: seq<Customer>, id: int, row: Customer): (r: seq<Customer>)
    ensures |r| == |cs|
    ensures forall j :: 0 <= j < |cs| ==> r[j] == (if cs[j].id == id then row else cs[j])
  {
    seq(|cs|, j requires 0 <= j < |cs| => if cs[j].id == id then row else cs[j])
  }

  /** An update keeps the tables consistent. */
  lemma ModifyKeepsConsistent(db: Db, id: int, data: map<string, Value>, order: seq<string>, now: string)
    requires forall k :: k in data <==> k in order
    requires Consistent(db)
    requires ModifyCustomer(db, id, data, order, now).Ok?
    ensures Consistent(ModifyCustomer(db, id, data, order, now).value.0)
  {
    var db' := ModifyCustomer(db, id, data, order, now).value.0;
    forall i | 0 <= i < |db'.tickets|
      ensures HasCustomer(db', db'.tickets[i].customerId)
    {
      var j :| 0 <= j < |db.customers| && db.customers[j].id == db.tickets[i].customerId;
      assert db'.customers[j].id == db.customers[j].id;
    }
    forall i, j | 0 <= i < j < |db'.customers|
      ensures db'.customers[i].id != db'.customers[j].id
    {
      assert db'.customers[i].id == db.customers[i].id;
      assert db'.customers[j].id == db.customers[j].id;
    }
  }

  // ---------------------------------------------------------------------
  // Tickets
  // ---------------------------------------------------------------------

  /** `add_ticket`: a new `open` ticket for an existing customer, with the
      next id, appended after every existing ticket. */
  function AddTicket(db: Db, customerId: int, issue: string, priority: string, now: string): (r: Result<(Db, Ticket)>)
    ensures ParsePriority(priority).None? ==> r == Err(PriorityError)
    ensures ParsePriority(priority).Some? && !HasCustomer(db, customerId) ==> r == Err("Customer does not exist.")
    ensures r.Ok? <==> ParsePriority(priority).Some? && HasCustomer(db, customerId)
    ensures r.Ok? ==> var (db', t) := r.value;
              t.status == Open && t.customerId == customerId && t.issue == issue &&
              PriorityName(t.priority) == priority && t.id == db.nextTicketId &&
              db'.customers == db.customers && db'.tickets == db.tickets + [t] &&
              db'.nextTicketId > t.id
  {
    match ParsePriority(priority)
    case None => Err(PriorityError)
    case Some(p) =>
      if FindCustomer(db.customers, customerId, 0).None? then Err("Customer does not exist.")
      else
        var t := Ticket(db.nextTicketId, customerId, issue, Open, p, now);
        Ok((Db(db.customers, db.tickets + [t], db.nextTicketId + 1), t))
  }

  /** Filing a ticket keeps the tables consistent. */
  lemma AddKeepsConsistent(db: Db, customerId: int, issue: string, priority: string, now: string)
    requires Consistent(db)
    requires AddTicket(db, customerId, issue, priority, now).Ok?
    ensures Consistent(AddTicket(db, customerId, issue, priority, now).value.0)
  {
    var (db', t) := AddTicket(db, customerId, issue, priority, now).value;
    forall i | 0 <= i < |db'.tickets|
      ensures db'.tickets[i].id < db'.nextTicketId && HasCustomer(db', db'.tickets[i].customerId)
    {
      if i < |db.tickets| {
        assert db'.tickets[i] == db.tickets[i];
      }
    }
  }

  /** The tickets of one customer, in row order. */
  function TicketsOf(db: Db, customerId: int): (r: seq<Ticket>)
    ensures forall t :: t in r <==> t in db.tickets && t.customerId == customerId
  {
    Filter(db.tickets, (t: Ticket) => t.customerId == customerId)
  }

  /** `fetch_customer_history`: the customer's row and all their tickets. */
  function FetchCustomerHistory(db: Db, id: int): (r: Result<(Customer, seq<Ticket>)>)
    ensures r.Ok? <==> HasCustomer(db, id)
    ensures r.Err? ==> r.error == "Customer not found."
    ensures r.Ok? ==> r.value.0.id == id && r.value.0 in db.customers
    ensures r.Ok? ==> forall t :: t in r.value.1 <==> t in db.tickets && t.customerId == id
  {
    match FetchCustomer(db, id)
    case None => Err("Customer not found.")
    case Some(c) => Ok((c, TicketsOf(db, id)))
  }

  /** A ticket passes the listing's filters: its customer is listed, and
      an absent or empty filter passes every ticket while any other must be
      the ticket's stored word. */
  predicate TicketMatches(t: Ticket, ids: seq<int>, status: Option<string>, priority: Option<string>) {
    t.customerId in ids &&
    (status.None? || status.value == [] || TicketStatusName(t.status) == status.value) &&
    (priority.None? || priority.value == [] || PriorityName(t.priority) == priority.value)
  }

  /** The tickets that pass the filters, in row order. */
  function MatchingTickets(ts: seq<Ticket>, ids: seq<int>, status: Option<string>, priority: Option<string>): (r: seq<Ticket>)
    ensures forall t :: t in r <==> t in ts && TicketMatches(t, ids, status, priority)
    ensures ids == [] ==> r == []
  {
    Filter(ts, (t: Ticket) => TicketMatches(t, ids, status, priority))
  }

  /** `fetch_tickets` (and its keyword wrapper `list_tickets_for_customers`):
      the tickets of the listed customers that match the filters, in row
      order. An empty customer list yields no tickets before the filters
      are looked at; otherwise the status is validated before the priority. */
  function FetchTickets(db: Db, ids: seq<int>, status: Option<string>, priority: Option<string>): (r: Result<seq<Ticket>>)
    ensures ids == [] ==> r == Ok([])
    ensures ids != [] && FilterArg(status, ParseTicketStatus, "Invalid ticket status.").Err? ==>
              r == Err("Invalid ticket status.")
    ensures ids != [] && FilterArg(status, ParseTicketStatus, "Invalid ticket status.").Ok? &&
            FilterArg(priority, ParsePriority, "Invalid ticket priority.").Err? ==>
              r == Err("Invalid ticket priority.")
    ensures r.Ok? <==> ids == [] || (FilterArg(status, ParseTicketStatus, "Invalid ticket status.").Ok? &&
                                     FilterArg(priority, ParsePriority, "Invalid ticket priority.").Ok?)
    ensures r.Ok? ==> r.value == MatchingTickets(db.tickets, ids, status, priority)
    ensures r.Ok? ==> forall t :: t in r.value <==> t in db.tickets && TicketMatches(t, ids, status, priority)
  {
    if ids == [] then
      Ok([])
    else
      match FilterArg(status, ParseTicketStatus, "Invalid ticket status.")
      case Err(e) => Err(e)
      case Ok(sf) =>
        match FilterArg(priority, ParsePriority, "Invalid ticket priority.")
        case Err(e) => Err(e)
        case Ok(pf) =>
          var keep := (t: Ticket) => t.customerId in ids && (sf.None? || t.status == sf.value) && (pf.None? || t.priority == pf.value);
          ParsedTicketFilters(db.tickets, ids, status, priority, sf, pf, keep);
          Ok(Filter(db.tickets, keep))
  }

  /** The test on parsed filter values keeps the tickets whose stored words
      match the given filters. */
  lemma ParsedTicketFilters(ts: seq<Ticket>, ids: seq<int>, status: Option<string>, priority: Option<string>,
                            sf: Option<TicketStatus>, pf: Option<Priority>, keep: Ticket -> bool)
    requires FilterArg(status, ParseTicketStatus, "Invalid ticket status.") == Ok(sf)
    requires FilterArg(priority, ParsePriority, "Invalid ticket priority.") == Ok(pf)
    requires forall t :: keep(t) == (t.customerId in ids && (sf.None? || t.status == sf.value) && (pf.None? || t.priority == pf.value))
    ensures Filter(ts, keep) == MatchingTickets(ts, ids, status, priority)
  {
    forall t | t in ts
      ensures keep(t) == TicketMatches(t, ids, status, priority)
    {
      TicketNamesAreExact(t.status, if sf.Some? then sf.value else t.status, t.priority, if pf.Some? then pf.value else t.priority);
    }
    FilterAgrees(ts, keep, (t: Ticket) => TicketMatches(t, ids, status, priority));
  }

  /** Two values of a ticket vocabulary are equal exactly when their words are. */
  lemma TicketNamesAreExact(s1: TicketStatus, s2: TicketStatus, p1: Priority, p2: Priority)
    ensures s1 == s2 <==> TicketStatusName(s1) == TicketStatusName(s2)
    ensures p1 == p2 <==> PriorityName(p1) == PriorityName(p2)
  {
  }

  /** A ticket filed for a customer shows up in that customer's ticket
      listing and history. */
  lemma FiledTicketIsListed(db: Db, customerId: int, issue: string, priority: string, now: string)
    requires AddTicket(db, customerId, issue, priority, now).Ok?
    ensures var (db', t) := AddTicket(db, customerId, issue, priority, now).value;
            FetchTickets(db', [customerId], None, None).Ok? && t in FetchTickets(db', [customerId], None, None).value &&
            FetchCustomerHistory(db', customerId).Ok? && t in FetchCustomerHistory(db', customerId).value.1
  {
    var (db', t) := AddTicket(db, customerId, issue, priority, now).value;
    assert t in db'.tickets;
    assert HasCustomer(db', customerId);
  }
}
