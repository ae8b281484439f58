/** The tool server of mcp_server/mcp_server.py: the per-tool handlers that
    coerce the decoded JSON arguments and build the reply dictionaries, and
    `call_tool`, which routes a call by name and turns every raised exception
    into an `{ok: false, error}` reply. */
module Server {
  import opened Wrappers
  import opened PyValues
  import opened Records
  import opened Tools

  // ---------------------------------------------------------------------
  // Replies

  /** The dictionaries the handlers return. */
  datatype Envelope =
    | Failed(error: string)
    | CustomerFound(customer: Customer)
    | CustomerListing(status: Value, customers: seq<Customer>)
    | TicketCreated(ticket: Ticket)
    | CustomerHistory(customer: Customer, tickets: seq<Ticket>)
    | OpenTicketCustomers(customers: seq<Customer>)
  {
    predicate IsOk() {
      !Failed?
    }
  }

  function SqlJson(v: SqlValue): Value {
    match v
    case SqlNull => Null
    case SqlInteger(i) => Int(i)
    case SqlText(t) => Str(t)
  }

  /** `dict(row)` of a customers row. */
  function CustomerJson(c: Customer): Value {
    Obj(map["id" := Int(c.id), "name" := SqlJson(c.name), "email" := SqlJson(c.email),
            "phone" := SqlJson(c.phone), "status" := SqlJson(c.status),
            "created_at" := Str(c.createdAt), "updated_at" := Str(c.updatedAt)])
  }

  /** `dict(row)` of a tickets row. */
  function TicketJson(t: Ticket): Value {
    Obj(map["id" := Int(t.id), "customer_id" := Int(t.customerId), "issue" := Str(t.issue),
            "priority" := Str(t.priority), "status" := Str(t.status), "created_at" := Str(t.createdAt)])
  }

  function CustomersJson(cs: seq<Customer>): (r: Value)
    ensures r.Arr? && |r.items| == |cs|
  {
    Arr(seq(|cs|, i requires 0 <= i < |cs| => CustomerJson(cs[i])))
  }

  function TicketsJson(ts: seq<Ticket>): (r: Value)
    ensures r.Arr? && |r.items| == |ts|
  {
    Arr(seq(|ts|, i requires 0 <= i < |ts| => TicketJson(ts[i])))
  }

  /** The reply as the dictionary `json.dumps` serialises: every reply carries
      `ok`, a failure carries exactly `ok` and `error`, and each count is the
      length of the list beside it. */
  function ToJson(e: Envelope): (r: Value)
    ensures r.Obj? && "ok" in r.fields && r.fields["ok"] == Bool(e.IsOk())
    ensures e.Failed? ==> r.fields.Keys == {"ok", "error"} && r.fields["error"] == Str(e.error)
    ensures e.IsOk() ==> "error" !in r.fields
    ensures e.CustomerListing? || e.OpenTicketCustomers? ==>
              "count" in r.fields && "customers" in r.fields && r.fields["customers"].Arr?
              && r.fields["count"] == Int(|r.fields["customers"].items|)
    ensures e.CustomerHistory? ==>
              "ticket_count" in r.fields && "tickets" in r.fields && r.fields["tickets"].Arr?
              && r.fields["ticket_count"] == Int(|r.fields["tickets"].items|)
  {
    match e
    case Failed(error) => Obj(map["ok" := Bool(false), "error" := Str(error)])
    case CustomerFound(c) => Obj(map["ok" := Bool(true), "customer" := CustomerJson(c)])
    case CustomerListing(status, cs) =>
      Obj(map["ok" := Bool(true), "status" := status, "count" := Int(|cs|), "customers" := CustomersJson(cs)])
    case TicketCreated(t) => Obj(map["ok" := Bool(true), "ticket" := TicketJson(t)])
    case CustomerHistory(c, ts) =>
      Obj(map["ok" := Bool(true), "customer" := CustomerJson(c), "ticket_count" := Int(|ts|),
              "tickets" := TicketsJson(ts)])
    case OpenTicketCustomers(cs) =>
      Obj(map["ok" := Bool(true), "count" := Int(|cs|), "customers" := CustomersJson(cs)])
  }

  function NotFoundMessage(id: int): string {
    "Customer with id=" + Decimal(id) + " not found."
  }

  function UnknownToolMessage(name: string): string {
    "Unknown tool '" + name + "'."
  }

  /** `f"Exception in tool '{name}': {type(e).__name__}: {e}"` */
  function ExceptionMessage(name: string, f: Fault): string {
    "Exception in tool '" + name + "': " + f.TypeName() + ": " + f.Text()
  }

  /** The three kinds of failure text never coincide, so a reply tells which branch produced it. */
  lemma FailureTextsDiffer(name: string)
    ensures forall id :: UnknownToolMessage(name) != NotFoundMessage(id)
    ensures forall other, f :: UnknownToolMessage(name) != ExceptionMessage(other, f)
    ensures forall id, other, f :: NotFoundMessage(id) != ExceptionMessage(other, f)
  {
    assert UnknownToolMessage(name)[0] == 'U';
    forall id ensures NotFoundMessage(id)[0] == 'C' {}
    forall other, f ensures ExceptionMessage(other, f)[0] == 'E' {}
  }

  // ---------------------------------------------------------------------
  // Arguments

  /** `args[key]` */
  function Arg(args: map<string, Value>, key: string): (r: Result<Value, Fault>)
    ensures key in args ==> r == Ok(args[key])
    ensures key !in args ==> r == Err(KeyError(key))
  {
    if key in args then Ok(args[key]) else Err(KeyError(key))
  }

  /** `int(args["customer_id"])` */
  function CustomerIdArg(args: map<string, Value>): (r: Result<int, Fault>)
    ensures "customer_id" !in args ==> r == Err(KeyError("customer_id"))
    ensures "customer_id" in args ==> r == PyInt(args["customer_id"])
  {
    var v :- Arg(args, "customer_id");
    PyInt(v)
  }

  /** A customer id sent as text, with any surrounding whitespace, reads as the number it spells. */
  lemma CustomerIdFromText(args: map<string, Value>, n: int, before: string, after: string)
    requires AllSpace(before) && AllSpace(after)
    requires "customer_id" in args && args["customer_id"] == Str(before + Decimal(n) + after)
    ensures CustomerIdArg(args) == Ok(n)
  {
    PyIntReadsDecimal(n, before, after);
  }

  const DefaultLimit: int := 20

  /** `int(args.get("limit", 20))` */
  function LimitArg(args: map<string, Value>): (r: Result<int, Fault>)
    ensures "limit" !in args ==> r == Ok(DefaultLimit)
    ensures "limit" in args ==> r == PyInt(args["limit"])
  {
    PyInt(if "limit" in args then args["limit"] else Int(DefaultLimit))
  }

  /** `dict(args.get("data") or {})`: an absent, None or otherwise false `data` is an empty mapping. */
  function DataArg(args: map<string, Value>): (r: Result<map<string, Value>, Fault>)
    ensures "data" !in args || !Truthy(args["data"]) ==> r == Ok(map[])
    ensures "data" in args && args["data"].Obj? ==> r == Ok(args["data"].fields)
    ensures "data" in args && Truthy(args["data"]) ==> r == PyDict(args["data"])
  {
    if "data" in args && Truthy(args["data"]) then PyDict(args["data"]) else Ok(map[])
  }

  /** `int(args["customer_id"])`, `str(args["issue"])`, `str(args["priority"])`, in that order. */
  function TicketArgs(args: map<string, Value>): (r: Result<(int, string, string), Fault>)
    ensures r.Ok? <==> CustomerIdArg(args).Ok? && "issue" in args && "priority" in args
    ensures CustomerIdArg(args).Err? ==> r == Err(CustomerIdArg(args).error)
    ensures CustomerIdArg(args).Ok? && "issue" !in args ==> r == Err(KeyError("issue"))
    ensures CustomerIdArg(args).Ok? && "issue" in args && "priority" !in args ==> r == Err(KeyError("priority"))
    ensures r.Ok? ==> r.value == (CustomerIdArg(args).value, PyStr(args["issue"]), PyStr(args["priority"]))
  {
    var id :- CustomerIdArg(args);
    var issue :- Arg(args, "issue");
    var priority :- Arg(args, "priority");
    Ok((id, PyStr(issue), PyStr(priority)))
  }

  // ---------------------------------------------------------------------
  // Handlers. `Err` is an exception the handler lets escape to call_tool.

  /** handle_get_customer */
  function HandleGetCustomer(store: Store, args: map<string, Value>): (r: Result<Envelope, Fault>)
    reads store
    requires store.Valid()
    ensures CustomerIdArg(args).Err? ==> r == Err(CustomerIdArg(args).error)
    ensures CustomerIdArg(args).Ok? ==>
              var id := CustomerIdArg(args).value;
              && (r.Err? <==> !InIntegerRange(id))
              && (r.Ok? && id in store.customers ==> r.value == CustomerFound(store.customers[id]))
              && (r.Ok? && id !in store.customers ==> r.value == Failed(NotFoundMessage(id)))
  {
    var id :- CustomerIdArg(args);
    var found :- store.FetchCustomer(id);
    Ok(if found.Some? then CustomerFound(found.value) else Failed(NotFoundMessage(id)))
  }

  /** handle_list_customers */
  function HandleListCustomers(store: Store, args: map<string, Value>): (r: Result<Envelope, Fault>)
    reads store
    requires store.Valid()
    ensures "status" !in args ==> r == Err(KeyError("status"))
    ensures "status" in args && LimitArg(args).Err? ==> r == Err(LimitArg(args).error)
    ensures "status" in args && LimitArg(args).Ok? ==>
              var status, limit := args["status"], LimitArg(args).value;
              && (r.Err? <==> (Truthy(status) && Bind(status, 1).Err?) || !InIntegerRange(limit))
              && (r.Ok? ==> r.value.CustomerListing? && r.value.status == status)
              && (r.Ok? ==> forall c :: c in r.value.customers ==> StoredIn(c, store.customers) && Selected(c, status))
              && (r.Ok? && 0 <= limit ==> |r.value.customers| <= limit)
              && (r.Ok? ==> forall id :: id in store.customers && Selected(store.customers[id], status)
                                         && store.customers[id] !in r.value.customers ==>
                                           |r.value.customers| == limit)
  {
    var status :- Arg(args, "status");
    var limit :- LimitArg(args);
    var customers :- store.FetchCustomers(status, limit);
    Ok(CustomerListing(status, customers))
  }

  /** handle_get_customer_history: the history is read only for a customer that exists. */
  function HandleGetCustomerHistory(store: Store, args: map<string, Value>): (r: Result<Envelope, Fault>)
    reads store
    requires store.Valid()
    ensures CustomerIdArg(args).Err? ==> r == Err(CustomerIdArg(args).error)
    ensures CustomerIdArg(args).Ok? ==>
              var id := CustomerIdArg(args).value;
              && (r.Err? <==> !InIntegerRange(id))
              && (r.Ok? && id !in store.customers ==> r.value == Failed(NotFoundMessage(id)))
              && (r.Ok? && id in store.customers ==>
                    && r.value.CustomerHistory?
                    && r.value.customer == store.customers[id]
                    && NewestFirst(r.value.tickets)
                    && multiset(r.value.tickets) == multiset(TicketsOf(store.tickets, id))
                    && forall t :: t in r.value.tickets <==> t in store.tickets && t.customerId == id)
  {
    var id :- CustomerIdArg(args);
    var found :- store.FetchCustomer(id);
    if found.None? then Ok(Failed(NotFoundMessage(id)))
    else
      Ok(CustomerHistory(found.value, store.FetchTicketHistory(id).value))
  }

  /** handle_list_active_customers_with_open_tickets. The query it calls is
      not defined in the store module; `outcome` stands for whatever it
      returns or raises. */
  function HandleListActiveCustomersWithOpenTickets(outcome: Result<seq<Customer>, Fault>): (r: Result<Envelope, Fault>)
    ensures r.Err? <==> outcome.Err?
    ensures r.Err? ==> r.error == outcome.error
    ensures r.Ok? ==> r.value.OpenTicketCustomers? && r.value.customers == outcome.value
  {
    var customers :- outcome;
    Ok(OpenTicketCustomers(customers))
  }

  /** handle_update_customer */
  method HandleUpdateCustomer(store: Store, args: map<string, Value>, now: Timestamp)
    returns (r: Result<Envelope, Fault>)
    requires store.Valid()
    modifies store
    ensures store.Valid()
    ensures store.tickets == old(store.tickets) && store.nextTicketId == old(store.nextTicketId)
    ensures store.scanOrder == old(store.scanOrder) && store.customers.Keys == old(store.customers).Keys
    ensures r.Err? || r.value.Failed? ==> store.customers == old(store.customers)
    ensures r.Ok? ==> r.value.Failed? || r.value.CustomerFound?
    ensures CustomerIdArg(args).Err? ==> r == Err(CustomerIdArg(args).error)
    ensures CustomerIdArg(args).Ok? && DataArg(args).Err? ==> r == Err(DataArg(args).error)
    ensures CustomerIdArg(args).Ok? && DataArg(args).Ok? ==>
              var id, data := CustomerIdArg(args).value, DataArg(args).value;
              && (!InIntegerRange(id) ==> r.Err?)
              && (r.Ok? && r.value.Failed? <==> InIntegerRange(id) && id !in old(store.customers))
              && (r.Ok? && r.value.Failed? ==> r.value.error == NotFoundMessage(id))
              && (r.Ok? && r.value.CustomerFound? <==> old(store.UpdateAccepted(id, data, now)))
              && (r.Err? <==> old(store.UpdateFault(id, data, now)).Some?)
              && (r.Err? ==> Some(r.error) == old(store.UpdateFault(id, data, now)))
              && (r.Ok? && r.value.CustomerFound? ==> id in store.customers && r.value.customer == store.customers[id])
              && (AllowedUpdates(data) == map[] ==> store.customers == old(store.customers))
              && (forall k :: k in store.customers && k != id ==> store.customers[k] == old(store.customers)[k])
              && (r.Ok? && r.value.CustomerFound? && AllowedUpdates(data) != map[] ==>
                    && BindUpdates(AllowedUpdates(data)).Ok?
                    && store.customers == old(store.Revised(id, BindUpdates(AllowedUpdates(data)).value, now))
                    && Revision(old(store.customers)[id], store.customers[id], BindUpdates(AllowedUpdates(data)).value))
  {
    var id :- CustomerIdArg(args);
    var data :- DataArg(args);
    var updated :- store.UpdateCustomerRecord(id, data, now);
    if updated.None? {
      return Ok(Failed(NotFoundMessage(id)));
    }
    return Ok(CustomerFound(updated.value));
  }

  /** handle_create_ticket: the ticket the store returns, `ok: true`, with
      the priority passed through `str()` and never checked against the
      advertised enum. */
  method HandleCreateTicket(store: Store, args: map<string, Value>, now: Timestamp)
    returns (r: Result<Envelope, Fault>)
    requires store.Valid()
    modifies store
    ensures store.Valid()
    ensures store.customers == old(store.customers) && store.scanOrder == old(store.scanOrder)
    ensures r.Err? ==> store.tickets == old(store.tickets) && store.nextTicketId == old(store.nextTicketId)
    ensures TicketArgs(args).Err? ==> r == Err(TicketArgs(args).error)
    ensures TicketArgs(args).Ok? ==>
              var (id, issue, priority) := TicketArgs(args).value;
              && (r.Ok? <==> old(store.InsertAccepted(id, issue, priority, now)))
              && (r.Err? ==> Some(r.error) == old(store.InsertFault(id, issue, priority, now)))
    ensures r.Ok? ==> && TicketArgs(args).Ok? && r.value.TicketCreated?
                      && store.tickets == old(store.tickets) + [r.value.ticket]
                      && r.value.ticket.customerId == TicketArgs(args).value.0
                      && r.value.ticket.issue == TicketArgs(args).value.1
                      && r.value.ticket.priority == TicketArgs(args).value.2
                      && r.value.ticket.status == "open"
                      && r.value.ticket.createdAt == now
                      && (forall t :: t in old(store.tickets) ==> t.id != r.value.ticket.id)
  {
    var fields :- TicketArgs(args);
    var ticket :- store.CreateTicketRecord(fields.0, fields.1, fields.2, now);
    return Ok(TicketCreated(ticket));
  }

  // ---------------------------------------------------------------------
  // Dispatch (call_tool)

  /** The `try`/`except Exception` around the handler call. */
  function Settle(name: string, outcome: Result<Envelope, Fault>): (r: Envelope)
    ensures outcome.Ok? ==> r == outcome.value
    ensures outcome.Err? ==> r == Failed(ExceptionMessage(name, outcome.error))
  {
    match outcome
    case Ok(e) => e
    case Err(f) => Failed(ExceptionMessage(name, f))
  }

  /** call_tool. `now` is the clock the database's timestamp defaults read;
      `openTickets` is the outcome of the query behind
      list_active_customers_with_open_tickets. Whatever a handler raises
      comes back as a reply, so the result is always an `Envelope`. */
  method CallTool(store: Store, name: string, arguments: map<string, Value>, now: Timestamp,
                  openTickets: Result<seq<Customer>, Fault>)
    returns (r: Envelope)
    requires store.Valid()
    modifies store
    ensures store.Valid()
    ensures Route(name).None? ==> r == Failed(UnknownToolMessage(name))
    ensures store.scanOrder == old(store.scanOrder)
    ensures !r.IsOk() ==> && store.customers == old(store.customers) && store.tickets == old(store.tickets)
                          && store.nextTicketId == old(store.nextTicketId)
    ensures Route(name) != Some(UpdateCustomer) && Route(name) != Some(CreateTicket) ==>
              && store.customers == old(store.customers) && store.tickets == old(store.tickets)
              && store.nextTicketId == old(store.nextTicketId)
    ensures Route(name) == Some(GetCustomer) ==> r == Settle(name, HandleGetCustomer(store, arguments))
    ensures Route(name) == Some(ListCustomers) ==> r == Settle(name, HandleListCustomers(store, arguments))
    ensures Route(name) == Some(GetCustomerHistory) ==> r == Settle(name, HandleGetCustomerHistory(store, arguments))
    ensures Route(name) == Some(ListActiveCustomersWithOpenTickets) ==>
              r == Settle(name, HandleListActiveCustomersWithOpenTickets(openTickets))
    ensures (Route(name) == Some(UpdateCustomer) || Route(name) == Some(CreateTicket)) && CustomerIdArg(arguments).Err? ==>
              r == Failed(ExceptionMessage(name, CustomerIdArg(arguments).error))
    ensures Route(name) == Some(UpdateCustomer) ==>
              && store.tickets == old(store.tickets) && store.nextTicketId == old(store.nextTicketId)
              && store.customers.Keys == old(store.customers).Keys
    ensures Route(name) == Some(CreateTicket) ==> store.customers == old(store.customers)
    ensures Route(name) == Some(UpdateCustomer) && CustomerIdArg(arguments).Ok? && DataArg(arguments).Err? ==>
              r == Failed(ExceptionMessage(name, DataArg(arguments).error))
    ensures Route(name) == Some(CreateTicket) && TicketArgs(arguments).Err? ==>
              r == Failed(ExceptionMessage(name, TicketArgs(arguments).error))
    ensures Route(name) == Some(UpdateCustomer) && r.IsOk() ==>
              r.CustomerFound? && StoredIn(r.customer, store.customers)
    ensures Route(name) == Some(UpdateCustomer) && CustomerIdArg(arguments).Ok? && DataArg(arguments).Ok? ==>
              var id, data := CustomerIdArg(arguments).value, DataArg(arguments).value;
              && (InIntegerRange(id) && id !in old(store.customers) ==> r == Failed(NotFoundMessage(id)))
              && (AllowedUpdates(data) == map[] ==> store.customers == old(store.customers))
              && (r.IsOk() ==> r.customer.id == id)
              && (r.IsOk() <==> old(store.UpdateAccepted(id, data, now)))
              // a fault the store raises comes back as the exception reply
              && (old(store.UpdateFault(id, data, now)).Some? ==>
                    r == Failed(ExceptionMessage(name, old(store.UpdateFault(id, data, now)).value)))
              && (forall k :: k in store.customers && k != id ==> store.customers[k] == old(store.customers)[k])
              && (r.IsOk() && AllowedUpdates(data) != map[] ==>
                    && BindUpdates(AllowedUpdates(data)).Ok?
                    && store.customers == old(store.Revised(id, BindUpdates(AllowedUpdates(data)).value, now))
                    && Revision(old(store.customers)[id], r.customer, BindUpdates(AllowedUpdates(data)).value))
    ensures Route(name) == Some(CreateTicket) && TicketArgs(arguments).Ok? ==>
              (r.IsOk() <==> old(store.InsertAccepted(TicketArgs(arguments).value.0, TicketArgs(arguments).value.1,
                                                      TicketArgs(arguments).value.2, now)))
    ensures Route(name) == Some(CreateTicket) && TicketArgs(arguments).Ok? ==>
              var (id, issue, priority) := TicketArgs(arguments).value;
              old(store.InsertFault(id, issue, priority, now)).Some? ==>
                r == Failed(ExceptionMessage(name, old(store.InsertFault(id, issue, priority, now)).value))
    ensures Route(name) == Some(CreateTicket) && r.IsOk() ==>
              && TicketArgs(arguments).Ok? && r.TicketCreated? && store.tickets == old(store.tickets) + [r.ticket]
              && r.ticket.customerId == TicketArgs(arguments).value.0 && r.ticket.issue == TicketArgs(arguments).value.1
              && r.ticket.status == "open" && r.ticket.priority == TicketArgs(arguments).value.2
              && r.ticket.createdAt == now && (forall t :: t in old(store.tickets) ==> t.id != r.ticket.id)
  {
    match Route(name)
    case None =>
      r := Failed(UnknownToolMessage(name));
    case Some(GetCustomer) =>
      r := Settle(name, HandleGetCustomer(store, arguments));
    case Some(ListCustomers) =>
      r := Settle(name, HandleListCustomers(store, arguments));
    case Some(UpdateCustomer) =>
      var outcome := HandleUpdateCustomer(store, arguments, now);
      r := Settle(name, outcome);
    case Some(CreateTicket) =>
      var outcome := HandleCreateTicket(store, arguments, now);
      r := Settle(name, outcome);
    case Some(GetCustomerHistory) =>
      r := Settle(name, HandleGetCustomerHistory(store, arguments));
    case Some(ListActiveCustomersWithOpenTickets) =>
      r := Settle(name, HandleListActiveCustomersWithOpenTickets(openTickets));
  }
}
