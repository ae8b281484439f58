/** The customer and ticket store behind the tool server (mcp_server/db.py),
    over an already-initialized SQLite database. The tables are explicit state:
    customers by id, the order a full scan visits them in, the tickets in
    insertion order, and the next ticket rowid. The schema itself is created by
    the setup script (`database_setup`, outside this model); what the model
    needs of it is the `Schema` value. */
module Records {
  import opened Wrappers
  import opened PyValues

  // ---------------------------------------------------------------------
  // SQLite values and parameter binding

  /** Text as SQLite's CURRENT_TIMESTAMP writes it ('YYYY-MM-DD HH:MM:SS'). */
  type Timestamp = string

  /** `a <= b` under SQLite's BINARY collation: code point by code point, a
      proper prefix first. For timestamps of one format this is chronological. */
  predicate AtOrBefore(a: string, b: string) {
    if |a| == 0 then true
    else if |b| == 0 then false
    else if a[0] != b[0] then a[0] < b[0]
    else AtOrBefore(a[1..], b[1..])
  }

  lemma {:induction false} AtOrBeforeTotal(a: string, b: string)
    ensures AtOrBefore(a, b) || AtOrBefore(b, a)
  {
    if |a| > 0 && |b| > 0 && a[0] == b[0] {
      AtOrBeforeTotal(a[1..], b[1..]);
    }
  }

  lemma {:induction false} AtOrBeforeTransitive(a: string, b: string, c: string)
    requires AtOrBefore(a, b) && AtOrBefore(b, c)
    ensures AtOrBefore(a, c)
  {
    if |a| > 0 && |b| > 0 && |c| > 0 && a[0] == b[0] && b[0] == c[0] {
      AtOrBeforeTransitive(a[1..], b[1..], c[1..]);
    }
  }

  /** SQLite INTEGER is a signed 64-bit value. */
  const MinInteger: int := -0x8000_0000_0000_0000
  const MaxInteger: int := 0x7FFF_FFFF_FFFF_FFFF

  predicate InIntegerRange(n: int) {
    MinInteger <= n <= MaxInteger
  }

  datatype SqlValue = SqlNull | SqlInteger(i: int) | SqlText(t: string)

  /** The Python sqlite3 module binding an int parameter. */
  function BindInteger(n: int): (r: Result<int, Fault>)
    ensures r.Ok? <==> InIntegerRange(n)
    ensures r.Ok? ==> r.value == n
  {
    if InIntegerRange(n) then Ok(n)
    else Err(OverflowError("Python int too large to convert to SQLite INTEGER"))
  }

  /** The Python sqlite3 module binding a parameter at a 1-based `position`:
      None is NULL, a bool is the integer 0 or 1, and lists and dicts are
      refused with an error naming the position. */
  function Bind(v: Value, position: nat): (r: Result<SqlValue, Fault>)
    ensures r.Ok? <==> match v
                       case Arr(_) => false
                       case Obj(_) => false
                       case Int(i) => InIntegerRange(i)
                       case _ => true
    ensures r.Ok? && v.Str? ==> r.value == SqlText(v.s)
    ensures (v.Arr? || v.Obj?) ==>
              r == Err(ProgrammingError("Error binding parameter " + Decimal(position) + ": type '"
                                        + TypeNameOf(v) + "' is not supported"))
  {
    match v
    case Null => Ok(SqlNull)
    case Bool(b) => Ok(SqlInteger(if b then 1 else 0))
    case Int(i) =>
      var n :- BindInteger(i);
      Ok(SqlInteger(n))
    case Str(s) => Ok(SqlText(s))
    case _ => Err(ProgrammingError("Error binding parameter " + Decimal(position) + ": type '" + TypeNameOf(v) + "' is not supported"))
  }

  /** SQL `a = b`: never true when either side is NULL. */
  predicate SqlEquals(a: SqlValue, b: SqlValue) {
    !a.SqlNull? && a == b
  }

  // ---------------------------------------------------------------------
  // Rows

  datatype Customer = Customer(
    id: int,
    name: SqlValue,
    email: SqlValue,
    phone: SqlValue,
    status: SqlValue,
    createdAt: Timestamp,
    updatedAt: Timestamp)

  datatype Ticket = Ticket(
    id: int,
    customerId: int,
    issue: string,
    priority: string,
    status: string,
    createdAt: Timestamp)

  /** What the schema of the setup script (`database_setup`, outside this
      model) decides: whether tickets.customer_id is a foreign key into
      customers, whether a trigger refreshes updated_at on every update of a
      customer, and what its NOT NULL, CHECK and UNIQUE constraints raise.
      `customerFault` judges the whole customers table as an UPDATE leaves
      it, so constraints across rows are covered; `ticketFault` judges a new
      tickets row. Each gives the exception SQLite raises, or None when the
      constraints admit it. */
  datatype Schema = Schema(
    foreignKeys: bool,
    refreshesUpdatedAt: bool,
    customerFault: map<int, Customer> -> Option<Fault>,
    ticketFault: Ticket -> Option<Fault>)

  /** Every customer is stored under its own id. */
  ghost predicate Keyed(customers: map<int, Customer>) {
    forall id :: id in customers ==> customers[id].id == id
  }

  /** The row is the one stored under its id. */
  ghost predicate StoredIn(c: Customer, customers: map<int, Customer>) {
    c.id in customers && customers[c.id] == c
  }

  ghost predicate Distinct(order: seq<int>) {
    forall i, j :: 0 <= i < j < |order| ==> order[i] != order[j]
  }

  /** The consistency of the two tables: every customer keyed by an INTEGER
      id and visited exactly once by a scan, ticket ids increasing in
      insertion order and below the next rowid, every row admitted by the
      schema, and with foreign keys on, every ticket's customer present. */
  ghost predicate Tables(schema: Schema, customers: map<int, Customer>, scanOrder: seq<int>,
                         tickets: seq<Ticket>, nextTicketId: int)
  {
    && Keyed(customers)
    && (forall id :: id in customers ==> InIntegerRange(id))
    && schema.customerFault(customers).None?
    && (forall i :: 0 <= i < |scanOrder| ==> scanOrder[i] in customers)
    && (forall id :: id in customers ==> id in scanOrder)
    && Distinct(scanOrder)
    && 1 <= nextTicketId
    && (forall i :: 0 <= i < |tickets| ==> 1 <= tickets[i].id < nextTicketId && schema.ticketFault(tickets[i]).None?)
    && (forall i, j :: 0 <= i < j < |tickets| ==> tickets[i].id < tickets[j].id)
    && (schema.foreignKeys ==> forall i :: 0 <= i < |tickets| ==> tickets[i].customerId in customers)
  }

  // ---------------------------------------------------------------------
  // Listing customers (fetch_customers)

  /** `WHERE status = ?` when the status argument is truthy; no filter otherwise. */
  predicate Selected(c: Customer, status: Value) {
    !Truthy(status) || (Bind(status, 1).Ok? && SqlEquals(c.status, Bind(status, 1).value))
  }

  /** A full scan of the customers table in scan order, keeping the selected rows. */
  function Scan(customers: map<int, Customer>, order: seq<int>, status: Value): (r: seq<Customer>)
    requires Keyed(customers)
    requires forall i :: 0 <= i < |order| ==> order[i] in customers
    ensures forall c :: c in r ==> StoredIn(c, customers) && c.id in order && Selected(c, status)
    ensures forall i :: 0 <= i < |order| && Selected(customers[order[i]], status) ==> customers[order[i]] in r
    ensures Distinct(order) ==> forall i, j :: 0 <= i < j < |r| ==> r[i].id != r[j].id
  {
    if order == [] then []
    else
      var rest := Scan(customers, order[1..], status);
      assert forall i :: 1 <= i < |order| ==> order[i] == order[1..][i - 1];
      var head := customers[order[0]];
      assert head.id == order[0] && forall x :: x in order[1..] ==> x in order;
      if Selected(head, status) then [head] + rest else rest
  }

  /** SQL `LIMIT n`: a negative limit means no limit. */
  function Take<T>(s: seq<T>, limit: int): (r: seq<T>)
    ensures limit < 0 ==> r == s
    ensures 0 <= limit ==> |r| == if limit < |s| then limit else |s|
    ensures r <= s
  {
    if limit < 0 || |s| <= limit then s else s[..limit]
  }

  // ---------------------------------------------------------------------
  // Ticket history (fetch_ticket_history)

  /** `WHERE customer_id = ?` over the tickets table, in table order. */
  function TicketsOf(tickets: seq<Ticket>, customerId: int): (r: seq<Ticket>)
    ensures forall t :: t in r <==> t in tickets && t.customerId == customerId
  {
    if tickets == [] then []
    else (if tickets[0].customerId == customerId then [tickets[0]] else [])
         + TicketsOf(tickets[1..], customerId)
  }

  /** `ORDER BY created_at DESC` holds of the sequence. */
  ghost predicate NewestFirst(ts: seq<Ticket>) {
    forall i, j :: 0 <= i < j < |ts| ==> AtOrBefore(ts[j].createdAt, ts[i].createdAt)
  }

  function InsertNewestFirst(t: Ticket, ts: seq<Ticket>): (r: seq<Ticket>)
    requires NewestFirst(ts)
    ensures NewestFirst(r)
    ensures multiset(r) == multiset(ts) + multiset{t}
  {
    if ts == [] then [t]
    else if AtOrBefore(ts[0].createdAt, t.createdAt) then
      NewestAhead(t, ts);
      [t] + ts
    else
      var rest := InsertNewestFirst(t, ts[1..]);
      HeadAhead(t, ts, rest);
      [ts[0]] + rest
  }

  lemma NewestAhead(t: Ticket, ts: seq<Ticket>)
    requires NewestFirst(ts) && ts != [] && AtOrBefore(ts[0].createdAt, t.createdAt)
    ensures NewestFirst([t] + ts)
  {
    forall j | 0 <= j < |ts| ensures AtOrBefore(ts[j].createdAt, t.createdAt) {
      if j > 0 {
        AtOrBeforeTransitive(ts[j].createdAt, ts[0].createdAt, t.createdAt);
      }
    }
  }

  lemma HeadAhead(t: Ticket, ts: seq<Ticket>, rest: seq<Ticket>)
    requires NewestFirst(ts) && ts != [] && !AtOrBefore(ts[0].createdAt, t.createdAt)
    requires NewestFirst(rest) && multiset(rest) == multiset(ts[1..]) + multiset{t}
    ensures NewestFirst([ts[0]] + rest)
    ensures multiset([ts[0]] + rest) == multiset(ts) + multiset{t}
  {
    AtOrBeforeTotal(ts[0].createdAt, t.createdAt);
    assert ts == [ts[0]] + ts[1..];
    forall j | 0 <= j < |rest| ensures AtOrBefore(rest[j].createdAt, ts[0].createdAt) {
      assert rest[j] in multiset(rest);
      if rest[j] != t {
        assert rest[j] in ts[1..];
      }
    }
  }

  /** The rows in `ORDER BY created_at DESC` order; rows with equal created_at
      keep no particular order in SQLite, and here keep their table order. */
  function SortNewestFirst(ts: seq<Ticket>): (r: seq<Ticket>)
    ensures NewestFirst(r)
    ensures multiset(r) == multiset(ts)
  {
    if ts == [] then []
    else
      assert ts == [ts[0]] + ts[1..];
      InsertNewestFirst(ts[0], SortNewestFirst(ts[1..]))
  }

  function FindTicket(tickets: seq<Ticket>, id: int): (r: Option<Ticket>)
    ensures r.Some? ==> r.value in tickets && r.value.id == id
    ensures r.None? ==> forall t :: t in tickets ==> t.id != id
  {
    if tickets == [] then None
    else if tickets[0].id == id then Some(tickets[0])
    else FindTicket(tickets[1..], id)
  }

  // ---------------------------------------------------------------------
  // Updating a customer (update_customer_record)

  /** The keys `update_customer_record` applies; every other key of `data`, `phone` included, is dropped. */
  const AllowedFields: set<string> := {"name", "email", "status"}

  function AllowedUpdates(data: map<string, Value>): (r: map<string, Value>)
    ensures r.Keys == data.Keys * AllowedFields
    ensures forall k :: k in r ==> r[k] == data[k]
  {
    map k | k in data && k in AllowedFields :: data[k]
  }

  /** The 1-based parameter position of an updated column in the SET
      clause, listing the updates in name, email, status order. */
  function SetPosition(updates: map<string, Value>, f: string): (p: nat)
    requires f in updates && updates.Keys <= AllowedFields
    ensures 1 <= p <= 3
    ensures p == 1 <==> (|| f == "name"
                         || (f == "email" && "name" !in updates)
                         || (f == "status" && "name" !in updates && "email" !in updates))
  {
    1 + (if f != "name" && "name" in updates then 1 else 0)
      + (if f == "status" && "email" in updates then 1 else 0)
  }

  /** Binding the SET values; when several fail, the first in name, email,
      status order is reported. */
  function BindUpdates(updates: map<string, Value>): (r: Result<map<string, SqlValue>, Fault>)
    requires updates.Keys <= AllowedFields
    ensures r.Ok? <==> forall f :: f in updates ==> Bind(updates[f], SetPosition(updates, f)).Ok?
    ensures r.Ok? ==> r.value.Keys == updates.Keys
                      && forall f :: f in updates ==> Bind(updates[f], SetPosition(updates, f)) == Ok(r.value[f])
  {
    if "name" in updates && Bind(updates["name"], SetPosition(updates, "name")).Err? then
      Err(Bind(updates["name"], SetPosition(updates, "name")).error)
    else if "email" in updates && Bind(updates["email"], SetPosition(updates, "email")).Err? then
      Err(Bind(updates["email"], SetPosition(updates, "email")).error)
    else if "status" in updates && Bind(updates["status"], SetPosition(updates, "status")).Err? then
      Err(Bind(updates["status"], SetPosition(updates, "status")).error)
    else Ok(map f | f in updates :: Bind(updates[f], SetPosition(updates, f)).value)
  }

  /** The UPDATE's SET clause applied to a row, then the updated_at trigger's stamp if there is one. */
  function Revise(c: Customer, assignments: map<string, SqlValue>, stamp: Option<Timestamp>): (r: Customer)
    ensures Revision(c, r, assignments)
    ensures r.updatedAt == if stamp.Some? then stamp.value else c.updatedAt
  {
    c.(name := if "name" in assignments then assignments["name"] else c.name,
       email := if "email" in assignments then assignments["email"] else c.email,
       status := if "status" in assignments then assignments["status"] else c.status,
       updatedAt := if stamp.Some? then stamp.value else c.updatedAt)
  }

  /** The value a row holds in one of the updatable columns. */
  function Field(c: Customer, f: string): SqlValue
    requires f in AllowedFields
  {
    if f == "name" then c.name else if f == "email" then c.email else c.status
  }

  /** `after` is `before` with the bound values of `assignments` in their columns,
      every other updatable column as it was, and id, phone and created_at untouched. */
  ghost predicate Revision(before: Customer, after: Customer, assignments: map<string, SqlValue>) {
    && after.id == before.id && after.phone == before.phone && after.createdAt == before.createdAt
    && forall f :: f in AllowedFields ==> Field(after, f) == if f in assignments then assignments[f] else Field(before, f)
  }

  /** Only the three listed keys of `data` matter: adding or changing any other key, `phone` among them, changes no update. */
  lemma UnlistedKeysIgnored(data: map<string, Value>, k: string, v: Value)
    requires k !in AllowedFields
    ensures AllowedUpdates(data[k := v]) == AllowedUpdates(data)
    ensures AllowedUpdates(data - {k}) == AllowedUpdates(data)
  {
  }

  /** Applying the same update again changes nothing but the trigger's stamp. */
  lemma ReviseIdempotent(c: Customer, assignments: map<string, SqlValue>, first: Option<Timestamp>, second: Option<Timestamp>)
    ensures Revise(Revise(c, assignments, first), assignments, second)
            == Revise(c, assignments, if second.Some? then second else first)
  {
  }

  /** Inserting a ticket extends its customer's history by that ticket and no other. */
  lemma {:induction false} TicketsOfAppend(tickets: seq<Ticket>, t: Ticket, customerId: int)
    ensures TicketsOf(tickets + [t], customerId)
            == TicketsOf(tickets, customerId) + (if t.customerId == customerId then [t] else [])
  {
    if tickets == [] {
      assert [] + [t] == [t] && [t][1..] == [];
    } else {
      assert (tickets + [t])[1..] == tickets[1..] + [t];
      TicketsOfAppend(tickets[1..], t, customerId);
    }
  }

  // ---------------------------------------------------------------------
  // The store

  class Store {
    const schema: Schema
    var customers: map<int, Customer>
    var scanOrder: seq<int>
    var tickets: seq<Ticket>
    var nextTicketId: int

    ghost predicate Valid()
      reads this
    {
      Tables(schema, customers, scanOrder, tickets, nextTicketId)
    }

    /** A database that the setup script has created and seeded. */
    constructor (schema: Schema, customers: map<int, Customer>, scanOrder: seq<int>,
                 tickets: seq<Ticket>, nextTicketId: int)
      requires Tables(schema, customers, scanOrder, tickets, nextTicketId)
      ensures Valid()
      ensures this.schema == schema && this.customers == customers && this.scanOrder == scanOrder
      ensures this.tickets == tickets && this.nextTicketId == nextTicketId
    {
      this.schema := schema;
      this.customers := customers;
      this.scanOrder := scanOrder;
      this.tickets := tickets;
      this.nextTicketId := nextTicketId;
    }

    /** fetch_customer: the row whose id equals the argument, or None. */
    function FetchCustomer(id: int): (r: Result<Option<Customer>, Fault>)
      reads this
      requires Valid()
      ensures r.Err? <==> !InIntegerRange(id)
      ensures r.Ok? ==> (r.value.Some? <==> id in customers)
      ensures r.Ok? && r.value.Some? ==> r.value.value.id == id && StoredIn(r.value.value, customers)
    {
      var key :- BindInteger(id);
      Ok(if key in customers then Some(customers[key]) else None)
    }

    /** fetch_customers: the rows a scan selects, cut at the LIMIT. */
    function FetchCustomers(status: Value, limit: int): (r: Result<seq<Customer>, Fault>)
      reads this
      requires Valid()
      ensures r.Err? <==> (Truthy(status) && Bind(status, 1).Err?) || !InIntegerRange(limit)
      ensures r.Ok? ==> forall c :: c in r.value ==> StoredIn(c, customers) && Selected(c, status)
      ensures r.Ok? && 0 <= limit ==> |r.value| <= limit
      // a selected row is missing only when the LIMIT cut the listing short
      ensures r.Ok? ==> forall id :: id in customers && Selected(customers[id], status) && customers[id] !in r.value ==>
                          |r.value| == limit
      ensures r.Ok? ==> forall i, j :: 0 <= i < j < |r.value| ==> r.value[i].id != r.value[j].id
    {
      var filter :- if Truthy(status) then Bind(status, 1) else Ok(SqlNull);
      var n :- BindInteger(limit);
      var selected := Scan(customers, scanOrder, status);
      assert forall id :: id in customers && Selected(customers[id], status) ==> customers[id] in selected by {
        forall id | id in customers && Selected(customers[id], status) ensures customers[id] in selected {
          var i :| 0 <= i < |scanOrder| && scanOrder[i] == id;
        }
      }
      Ok(Take(selected, n))
    }

    /** fetch_ticket_history: the customer's tickets, newest first. */
    function FetchTicketHistory(customerId: int): (r: Result<seq<Ticket>, Fault>)
      reads this
      ensures r.Err? <==> !InIntegerRange(customerId)
      ensures r.Ok? ==> NewestFirst(r.value)
      ensures r.Ok? ==> multiset(r.value) == multiset(TicketsOf(tickets, customerId))
      ensures r.Ok? ==> forall t :: t in r.value <==> t in tickets && t.customerId == customerId
    {
      var key :- BindInteger(customerId);
      var history := SortNewestFirst(TicketsOf(tickets, key));
      assert forall t :: t in history <==> t in multiset(TicketsOf(tickets, key));
      Ok(history)
    }

    /** The SELECT that reads a ticket back by its id. */
    function TicketById(id: int): (r: Option<Ticket>)
      reads this
      ensures r.Some? ==> r.value in tickets && r.value.id == id
      ensures r.None? ==> forall t :: t in tickets ==> t.id != id
    {
      FindTicket(tickets, id)
    }

    /** The row create_ticket_record inserts. */
    function NewTicket(customerId: int, issue: string, priority: string, now: Timestamp): (t: Ticket)
      reads this
      ensures t.id == nextTicketId && t.status == "open" && t.createdAt == now
      ensures t.customerId == customerId && t.issue == issue && t.priority == priority
    {
      Ticket(nextTicketId, customerId, issue, priority, "open", now)
    }

    /** Whether the INSERT of create_ticket_record goes through. */
    predicate InsertAccepted(customerId: int, issue: string, priority: string, now: Timestamp)
      reads this
    {
      && InIntegerRange(customerId)
      && schema.ticketFault(NewTicket(customerId, issue, priority, now)).None?
      && (schema.foreignKeys ==> customerId in customers)
    }

    /** The exception the INSERT of create_ticket_record raises, if any: an
        out-of-range customer id when it is bound, then the row's own
        constraints, then the foreign key at the end of the statement. */
    function InsertFault(customerId: int, issue: string, priority: string, now: Timestamp): (f: Option<Fault>)
      reads this
      ensures f.None? <==> InsertAccepted(customerId, issue, priority, now)
      ensures !InIntegerRange(customerId) ==> f == Some(BindInteger(customerId).error)
      ensures InIntegerRange(customerId) && schema.ticketFault(NewTicket(customerId, issue, priority, now)).Some? ==>
                f == schema.ticketFault(NewTicket(customerId, issue, priority, now))
      ensures && InIntegerRange(customerId) && schema.ticketFault(NewTicket(customerId, issue, priority, now)).None?
              && schema.foreignKeys && customerId !in customers ==>
                f == Some(IntegrityError("FOREIGN KEY constraint failed"))
    {
      if !InIntegerRange(customerId) then Some(BindInteger(customerId).error)
      else if schema.ticketFault(NewTicket(customerId, issue, priority, now)).Some? then
        schema.ticketFault(NewTicket(customerId, issue, priority, now))
      else if schema.foreignKeys && customerId !in customers then Some(IntegrityError("FOREIGN KEY constraint failed"))
      else None
    }

    /** What the updated_at trigger, if the schema has one, stamps on an updated row. */
    function Stamp(now: Timestamp): (s: Option<Timestamp>)
      ensures s.Some? <==> schema.refreshesUpdatedAt
      ensures s.Some? ==> s.value == now
    {
      if schema.refreshesUpdatedAt then Some(now) else None
    }

    /** The customers table as the UPDATE of update_customer_record leaves it. */
    function Revised(id: int, assignments: map<string, SqlValue>, now: Timestamp): (table: map<int, Customer>)
      reads this
      requires id in customers
      ensures table.Keys == customers.Keys
      ensures forall k :: k in table && k != id ==> table[k] == customers[k]
      ensures Revision(customers[id], table[id], assignments)
    {
      customers[id := Revise(customers[id], assignments, Stamp(now))]
    }

    /** Whether update_customer_record finds the customer and its UPDATE, if
        it issues one, goes through. */
    predicate UpdateAccepted(id: int, data: map<string, Value>, now: Timestamp)
      reads this
    {
      && InIntegerRange(id)
      && id in customers
      && (AllowedUpdates(data) != map[] ==>
            && BindUpdates(AllowedUpdates(data)).Ok?
            && schema.customerFault(Revised(id, BindUpdates(AllowedUpdates(data)).value, now)).None?)
    }

    /** The exception update_customer_record raises, if any: an out-of-range
        id, then, for an existing customer and a non-empty update, a SET value
        that does not bind, then the constraint the revised table breaks. */
    function UpdateFault(id: int, data: map<string, Value>, now: Timestamp): (f: Option<Fault>)
      reads this
      ensures f.None? <==> InIntegerRange(id) && (id in customers ==> UpdateAccepted(id, data, now))
      ensures !InIntegerRange(id) ==> f == Some(BindInteger(id).error)
      ensures InIntegerRange(id) && id in customers && AllowedUpdates(data) != map[] ==>
                && (BindUpdates(AllowedUpdates(data)).Err? ==> f == Some(BindUpdates(AllowedUpdates(data)).error))
                && (BindUpdates(AllowedUpdates(data)).Ok? ==>
                      f == schema.customerFault(Revised(id, BindUpdates(AllowedUpdates(data)).value, now)))
    {
      if !InIntegerRange(id) then Some(BindInteger(id).error)
      else if id !in customers || AllowedUpdates(data) == map[] then None
      else if BindUpdates(AllowedUpdates(data)).Err? then Some(BindUpdates(AllowedUpdates(data)).error)
      else schema.customerFault(Revised(id, BindUpdates(AllowedUpdates(data)).value, now))
    }

    /** update_customer_record. `now` is what the updated_at trigger, if the
        schema has one, writes. */
    method UpdateCustomerRecord(id: int, data: map<string, Value>, now: Timestamp)
      returns (r: Result<Option<Customer>, Fault>)
      requires Valid()
      modifies this
      ensures Valid()
      ensures tickets == old(tickets) && nextTicketId == old(nextTicketId) && scanOrder == old(scanOrder)
      ensures customers.Keys == old(customers).Keys
      ensures forall k :: k in customers && k != id ==> customers[k] == old(customers)[k]
      ensures r.Err? ==> customers == old(customers)
      ensures r.Ok? && r.value.None? ==> customers == old(customers)
      // with no applicable key, the answer is fetch_customer's and nothing changes
      ensures AllowedUpdates(data) == map[] ==> r == old(FetchCustomer(id)) && customers == old(customers)
      ensures InIntegerRange(id) && id !in old(customers) ==> r == Ok(None)
      ensures !InIntegerRange(id) ==> r == Err(BindInteger(id).error)
      ensures r.Ok? ==> (r.value.Some? <==> id in old(customers))
      // the update of an existing customer succeeds exactly when its values bind and the table admits the result
      ensures (r.Ok? && r.value.Some?) <==> old(UpdateAccepted(id, data, now))
      ensures r.Err? <==> old(UpdateFault(id, data, now)).Some?
      ensures r.Err? ==> Some(r.error) == old(UpdateFault(id, data, now))
      ensures r.Err? && InIntegerRange(id) ==>
                && id in old(customers) && AllowedUpdates(data) != map[]
                && (BindUpdates(AllowedUpdates(data)).Err? ==> r.error == BindUpdates(AllowedUpdates(data)).error)
                && (BindUpdates(AllowedUpdates(data)).Ok? ==>
                      schema.customerFault(old(Revised(id, BindUpdates(AllowedUpdates(data)).value, now))) == Some(r.error))
      ensures r.Ok? && r.value.Some? ==> id in customers && r.value.value == customers[id]
      ensures r.Ok? && r.value.Some? && AllowedUpdates(data) != map[] ==>
                && BindUpdates(AllowedUpdates(data)).Ok?
                && customers == old(Revised(id, BindUpdates(AllowedUpdates(data)).value, now))
                && Revision(old(customers)[id], customers[id], BindUpdates(AllowedUpdates(data)).value)
                && customers[id].updatedAt == if schema.refreshesUpdatedAt then now else old(customers)[id].updatedAt
    {
      var updates := AllowedUpdates(data);
      if updates == map[] {
        r := FetchCustomer(id);
        return;
      }
      var key :- BindInteger(id);
      if key !in customers {
        return Ok(None);
      }
      var assignments :- BindUpdates(updates);
      var table := Revised(key, assignments, now);
      var fault := schema.customerFault(table);
      if fault.Some? {
        return Err(fault.value);
      }
      customers := table;
      r := FetchCustomer(key);
      assert r == Ok(Some(table[key]));
    }

    /** create_ticket_record: insert an open ticket and read it back. `now`
        is what the schema's created_at default writes. */
    method CreateTicketRecord(customerId: int, issue: string, priority: string, now: Timestamp)
      returns (r: Result<Ticket, Fault>)
      requires Valid()
      modifies this
      ensures Valid()
      ensures customers == old(customers) && scanOrder == old(scanOrder)
      ensures r.Ok? <==> old(InsertAccepted(customerId, issue, priority, now))
      ensures r.Err? ==> Some(r.error) == old(InsertFault(customerId, issue, priority, now))
      ensures !InIntegerRange(customerId) ==> r == Err(BindInteger(customerId).error)
      // the row's own constraints are checked first, the foreign key at the end of the statement
      ensures r.Err? && InIntegerRange(customerId) ==>
                var fault := schema.ticketFault(old(NewTicket(customerId, issue, priority, now)));
                && (fault.Some? ==> r.error == fault.value)
                && (fault.None? ==> r.error == IntegrityError("FOREIGN KEY constraint failed"))
      ensures r.Err? ==> tickets == old(tickets) && nextTicketId == old(nextTicketId)
      ensures r.Ok? ==> tickets == old(tickets) + [r.value]
      ensures r.Ok? ==> && r.value.customerId == customerId && r.value.issue == issue
                        && r.value.priority == priority && r.value.status == "open"
                        && r.value.createdAt == now
      ensures r.Ok? ==> forall t :: t in old(tickets) ==> t.id != r.value.id
      ensures r.Ok? ==> TicketById(r.value.id) == Some(r.value)
    {
      var key :- BindInteger(customerId);
      var ticket := NewTicket(key, issue, priority, now);
      var fault := schema.ticketFault(ticket);
      if fault.Some? {
        return Err(fault.value);
      }
      if schema.foreignKeys && key !in customers {
        return Err(IntegrityError("FOREIGN KEY constraint failed"));
      }
      tickets := tickets + [ticket];
      nextTicketId := nextTicketId + 1;
      assert ticket == tickets[|tickets| - 1];
      var row := TicketById(ticket.id);
      assert row.Some? && row.value == ticket by {
        var i :| 0 <= i < |tickets| && tickets[i] == row.value;
        if i < |tickets| - 1 {
          assert old(tickets)[i] == tickets[i];
        }
      }
      r := Ok(row.value);
    }
  }
}
