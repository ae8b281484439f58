# Customer-support tool server, modelled in Dafny

This project models the customer-support tool server: a process that offers
six tools over a SQLite store of customers and tickets. It covers two parts.

- The store layer (`mcp_server/db.py`): `fetch_customer`, `fetch_customers`,
  `update_customer_record`, `create_ticket_record` and
  `fetch_ticket_history`.
- The server (`mcp_server/mcp_server.py`):
  - the `list_tools` catalogue;
  - the six `handle_*` handlers, which coerce JSON arguments with `int()`,
    `str()` and `dict()` and build the reply dictionaries;
  - `call_tool`, which picks a handler by name and turns any exception a
    handler raises into an `{ok: false, error}` reply.

The files:

- `wrappers.dfy`: `Option` and `Result`. An `Err` stands for an exception
  the Python code raises.
- `pyvalues.dfy`: decoded JSON values, and the parts of Python's `int()`,
  `str()` and `dict()` that the handlers use, error texts included.
- `records.dfy`: the database as a `Store` class. Its fields are:
  - customers by id;
  - the order a full table scan visits them in;
  - tickets in insertion order;
  - the next ticket rowid.

  The five store functions are modelled on it. Reads are functions;
  `update_customer_record` and `create_ticket_record` are methods that change
  the store. The `Tables` invariant is kept by every call. Parameter binding
  follows the Python `sqlite3` module: 64-bit INTEGER range, bools as 0/1,
  lists and dicts refused. `ORDER BY created_at DESC` is a sort whose result
  is proved newest-first and a permutation of the customer's tickets.
- `tools.dfy`: tool names, the name lookup of `call_tool`, and the catalogue.
- `coverage.dfy`: the catalogue and the dispatch agree.
- `server.dfy`: the replies, argument coercion, the handlers, and `call_tool`.
- `scenarios.dfy`: concrete requests and the replies they get.

The setup script (`database_setup`, outside this model) creates the schema,
and the schema decides several things. The `Schema` value stands for them:

- whether the schema declares `tickets.customer_id` a foreign key into
  `customers` (`PRAGMA foreign_keys = ON` is issued on every connection, so
  a declared key is enforced);
- whether a trigger refreshes `updated_at`;
- which exception the NOT NULL, CHECK and UNIQUE constraints raise. For
  customers this is judged on the whole table as an UPDATE leaves it. For
  tickets it is judged on the new row.

The clock that `CURRENT_TIMESTAMP` reads is a `now` parameter.

Where the server's description and its code disagree, the model follows the
code:

- The `update_customer` schema says `phone` is updatable
  (`mcp_server/mcp_server.py:63` and `:75`). But `update_customer_record`
  keeps only `name`, `email` and `status` (`mcp_server/db.py:83-84`).
- The advertised `priority` enum and `limit` minimum are never enforced by
  the handlers.

## Model

| member | source | states |
|---|---|---|
| PyValues.PyInt | mcp_server/mcp_server.py:135 | `int()` of an argument: an int is itself and a bool is 0 or 1. A string succeeds exactly when it parses as a base-10 numeral, giving that numeral's value. Otherwise it raises ValueError with Python's message, whose repr is cut at 200 characters. None, a list or a dict raises TypeError. |
| PyValues.PyIntReadsDecimal | mcp_server/mcp_server.py:135 | `int()` reads any decimal numeral back as its value, whatever whitespace `int()` ignores surrounds it. That is the six ASCII whitespace characters and non-ASCII Unicode spaces, not U+001C to U+001F. |
| PyValues.PyIntOfPyStr | mcp_server/mcp_server.py:135-140 | Round trip: `int(str(n)) == n` for every integer n, so the id printed in the not-found text reads back as that id. |
| PyValues.PyStr | mcp_server/mcp_server.py:182-183 | `str()` of an argument: a string is itself, an int is its decimal numeral, None is `None`, a bool is `True` or `False`, and a list is bracketed. |
| PyValues.PyDict | mcp_server/mcp_server.py:164 | `dict()` of a JSON object is its own mapping. None, a bool or an int raises TypeError. |
| Records.AtOrBeforeTotal | mcp_server/db.py:144 | The BINARY collation that `ORDER BY created_at` uses is total. |
| Records.AtOrBeforeTransitive | mcp_server/db.py:144 | That collation is transitive. |
| Records.BindInteger | mcp_server/db.py:46 | Binding an int succeeds exactly within SQLite's signed 64-bit range and keeps the value. Otherwise it raises OverflowError. |
| Records.Bind | mcp_server/db.py:65 | Binding a value fails exactly for a list, a dict or an out-of-range int. A list or dict gets the ProgrammingError that names the 1-based parameter position. A string binds as TEXT unchanged. |
| Records.Scan | mcp_server/db.py:57-75 | A table scan returns only stored rows that the status filter selects. It misses no selected row and repeats no id. |
| Records.Take | mcp_server/db.py:63 | `LIMIT n` is a prefix of the rows, `min(n, count)` long. A negative limit keeps them all. |
| Records.TicketsOf | mcp_server/db.py:139-143 | `WHERE customer_id = ?` keeps exactly the tickets of that customer. |
| Records.InsertNewestFirst | mcp_server/db.py:144 | Inserting into a newest-first list keeps it newest first and adds exactly that ticket. |
| Records.SortNewestFirst | mcp_server/db.py:144 | `ORDER BY created_at DESC` yields a newest-first permutation of its input. |
| Records.FindTicket | mcp_server/db.py:125-133 | The lookup by id finds a ticket with that id, or None exactly when no ticket has it. |
| Records.AllowedUpdates | mcp_server/db.py:83-84 | The applied updates are exactly the entries of `data` whose key is name, email or status, with their values. |
| Records.SetPosition | mcp_server/db.py:97-98 | Each updated column's parameter position in the SET clause, from 1 to 3, with the columns taken in name, email, status order (Python takes the client's key order; see "Left out"). The first listed column is at 1. |
| Records.BindUpdates | mcp_server/db.py:97-103 | The SET values bind exactly when each one binds at its position, each column getting its bound value. |
| Records.Revise | mcp_server/db.py:97-103 | The UPDATE sets the assigned columns and keeps the other updatable ones. id, phone and created_at are untouched. updated_at is the trigger's stamp if there is one. |
| Records.UnlistedKeysIgnored | mcp_server/db.py:83-84 | Adding, changing or removing any key other than name, email or status (phone included) changes nothing about the update. |
| Records.ReviseIdempotent | mcp_server/db.py:97-106 | Applying the same update twice equals applying it once, apart from the trigger's stamp. |
| Records.TicketsOfAppend | mcp_server/db.py:137-149 | Inserting a ticket adds it to its own customer's history and changes no other customer's history. |
| Records.Store.FetchCustomer | mcp_server/db.py:38-49 | Fails exactly for an id outside the INTEGER range. Otherwise it returns the stored row under that id, or None exactly when no row has it. |
| Records.Store.FetchCustomers | mcp_server/db.py:52-77 | Fails exactly when a truthy status cannot bind or the limit is out of range. Otherwise every row is stored and matches the status filter, at most `limit` rows come back, and ids do not repeat. A matching row is left out only when the limit was reached. |
| Records.Store.FetchTicketHistory | mcp_server/db.py:137-149 | Returns the customer's tickets, exactly those, newest first. |
| Records.Store.TicketById | mcp_server/db.py:125-134 | Reading a ticket back by id finds a stored ticket with that id, or None exactly when there is none. |
| Records.Store.Revised | mcp_server/db.py:97-103 | The table an UPDATE leaves: same ids and other rows, and the updated row is a `Revision` of the old one. |
| Records.Store.UpdateFault | mcp_server/db.py:79-106 | The exception update_customer_record raises: OverflowError for an out-of-range id, none for an absent customer or an empty update, and for the rest none exactly when the update is accepted. |
| Records.Store.UpdateCustomerRecord | mcp_server/db.py:79-106 | With no allowed key it answers as `fetch_customer` and changes nothing. An id out of range raises OverflowError. For an in-range id it answers None exactly when the customer is missing. For an existing customer it succeeds exactly when the values bind and the schema admits the revised table. It then stores that table and returns the row. Otherwise it raises the binding error or the constraint's exception; the exception raised is exactly `UpdateFault`. Every failure leaves the tables unchanged, and the table invariant is kept. |
| Records.Store.InsertFault | mcp_server/db.py:114-121 | The exception the INSERT raises: OverflowError for an out-of-range customer id, then the row constraint's exception, then the foreign-key IntegrityError; none exactly when the INSERT is accepted. |
| Records.Store.CreateTicketRecord | mcp_server/db.py:109-134 | Succeeds exactly when the INSERT is accepted (INTEGER range, the row's constraints, then the foreign key). A rejection raises OverflowError, the row constraint's exception, or the foreign-key IntegrityError, in that order, exactly `InsertFault`. On success it appends one open ticket with the given customer, issue and priority and a fresh id, and that ticket is the row read back. On failure nothing changes. |
| Tools.Route | mcp_server/mcp_server.py:225-241 | The if/elif chain picks the tool whose name equals the argument, and no tool for any other name. |
| Tools.ToolFor | mcp_server/mcp_server.py:25-129 | Each catalogue entry carries its own tool's name. |
| Tools.ListTools | mcp_server/mcp_server.py:23-130 | `list_tools` returns the six entries, in their listed order. |
| Tools.ToolNameInjective | mcp_server/mcp_server.py:225-236 | No two tools share a name, so each name selects at most one branch. |
| Coverage.AdvertisedToolsRouted | mcp_server/mcp_server.py:225-236 | Every advertised tool has a branch in `call_tool`, so none gets the unknown-tool reply. |
| Coverage.EveryToolAdvertised | mcp_server/mcp_server.py:23-130 | Every branch of `call_tool` is advertised, at its place in the list. |
| Coverage.AdvertisedNamesDistinct | mcp_server/mcp_server.py:23-130 | No name is advertised twice. |
| Coverage.RequiredArgumentsDescribed | mcp_server/mcp_server.py:28-127 | Every argument a schema requires is among the properties it describes. |
| Server.ToJson | mcp_server/mcp_server.py:137-219 | Every reply has `ok`, true exactly for a success. A failure has exactly `ok` and `error`. A success has no `error`. Each `count` or `ticket_count` equals the length of the list beside it. |
| Server.FailureTextsDiffer | mcp_server/mcp_server.py:237-246 | The unknown-tool, not-found and exception texts never coincide. |
| Server.CustomerIdArg | mcp_server/mcp_server.py:135 | A missing `customer_id` is KeyError('customer_id'). Otherwise the id is `int()` of the argument. |
| Server.CustomerIdFromText | mcp_server/mcp_server.py:135 | A customer id sent as padded text reads as the number it spells. |
| Server.LimitArg | mcp_server/mcp_server.py:151 | The limit is 20 when absent, otherwise `int()` of the argument. |
| Server.DataArg | mcp_server/mcp_server.py:164 | A missing or falsy `data` is an empty mapping, an object is its own mapping, and any other value goes through `dict()`. |
| Server.TicketArgs | mcp_server/mcp_server.py:181-183 | Succeeds exactly when customer_id converts and issue and priority are present. Errors come in source order. The values are `int()` and `str()` of the arguments. |
| Server.HandleGetCustomer | mcp_server/mcp_server.py:133-145 | Argument errors propagate, and an out-of-range id raises. Otherwise the reply is the stored customer, or the not-found text exactly when the id is absent. |
| Server.HandleListCustomers | mcp_server/mcp_server.py:148-158 | A missing `status` is a KeyError and limit errors propagate. It raises exactly when a truthy status cannot bind or the limit is out of range. Otherwise it echoes the status and lists stored rows that match it: at most `limit`, none left out unless the limit was reached. |
| Server.HandleGetCustomerHistory | mcp_server/mcp_server.py:192-208 | Not-found text exactly for an absent id. Otherwise the customer and exactly their tickets, newest first. |
| Server.HandleListActiveCustomersWithOpenTickets | mcp_server/mcp_server.py:210-219 | The query's failure propagates unchanged. Otherwise the reply lists exactly the customers it returned. |
| Server.HandleUpdateCustomer | mcp_server/mcp_server.py:161-176 | Argument errors propagate in order. It gives not-found exactly for an in-range absent id. The reply is the customer exactly when the store accepts the update, and then it is the stored row of the revised table. Otherwise the store's exception escapes unchanged: exactly `UpdateFault`. Only that customer changes, and any failure changes nothing. |
| Server.HandleCreateTicket | mcp_server/mcp_server.py:179-189 | Argument errors propagate, and otherwise it succeeds exactly when the INSERT is accepted; a refused INSERT lets `InsertFault` escape unchanged. The reply's ticket is appended open, with the given customer, issue and priority (unchecked) and a fresh id. |
| Server.Settle | mcp_server/mcp_server.py:242-246 | A handler's reply passes through. An exception becomes `Exception in tool '<name>': <type>: <message>`. |
| Server.CallTool | mcp_server/mcp_server.py:223-246 | An unknown name gets `Unknown tool '<name>'.` No tool changes the scan order, and every read-only tool changes nothing. Each read tool replies as its handler, with exceptions settled. `update_customer` touches only the named customer, and its reply is ok exactly when the store accepts the update, storing the revised table. A store exception on either mutating route becomes `Exception in tool '<name>': <type>: <message>` for `UpdateFault` or `InsertFault`, so a ticket for an absent customer under a foreign key gets the `IntegrityError: FOREIGN KEY constraint failed` reply. `create_ticket` leaves customers alone, and on success appends the open ticket with the given fields and a fresh id. Any failed reply leaves the tables unchanged, and the store invariant is kept. |
| Scenarios.UnknownToolReply | mcp_server/mcp_server.py:237-241 | `delete_customer` is not routed, and its reply is `{ok: false, error: "Unknown tool 'delete_customer'."}`. |
| Scenarios.MissingCustomerIdReply | mcp_server/mcp_server.py:242-246 | A `get_customer` call without `customer_id` gets the KeyError exception reply rather than raising. |
| Scenarios.NonNumericCustomerId | mcp_server/mcp_server.py:135 | `customer_id` "abc" raises ValueError with Python's message. |
| Scenarios.NotFoundReply | mcp_server/mcp_server.py:137-141 | A missing customer 7 gets `Customer with id=7 not found.` as an `ok: false` reply. |
| Scenarios.PhoneOnlyDataIgnored | mcp_server/db.py:83-84 | An update whose data holds only `phone` applies no field. |
| Scenarios.UrgentPriorityPassedThrough | mcp_server/mcp_server.py:181-185 | A priority outside the advertised enum, and a customer id sent as padded text, reach the INSERT as given (when the framework passes them through unvalidated; see "Left out"). |

## Left out

- `ensure_db_initialized` and `_get_connection` (`mcp_server/db.py`): creating and seeding the database file and opening connections are left out. The store starts from a database that already satisfies the table invariant.
- The setup script (`database_setup`) is not part of this model. Its constraints are abstracted as the `Schema` value, and whether it declares `tickets.customer_id` a foreign key as its `foreignKeys` flag (`mcp_server/db.py:34` turns enforcement on for every connection). A ticket constraint that spans several rows is not modelled, since the ticket constraints judge the new row alone.
- `fetch_active_customers_with_open_tickets` is imported at `mcp_server/mcp_server.py:16` but not defined in `mcp_server/db.py`, so the module as shown fails to import. The model treats its outcome as a parameter of `call_tool` and otherwise models the server as if the import succeeded.
- Serialising the reply to JSON text, `TextContent`, the stdio `main` and the MCP server object are transport and are left out. `Server.ToJson` gives the dictionary that `json.dumps` would serialise.
- The handlers are `async`; concurrency, SQLite transactions, locking and I/O errors are not modelled. Only the exceptions named in `PyValues.Fault` are raised.
- PyValues.PyInt: CPython's limit of 4300 digits for converting a string to an int is not modelled. A longer numeral is read as its value, so the model reports the OverflowError of binding it where Python raises ValueError.
- PyValues.PairAt: a list element that is a two-key object is, in Python, the pair of its keys in insertion order. The model keeps no key order and raises the length ValueError for it instead.
- JSON numbers that are not integers (`int(3.7)`), non-ASCII digits in `int()`, and the escaping `repr()` applies inside quotes are not modelled.
- Python dictionaries are modelled as maps, so key order is not kept. `str()` of a non-empty dict is a placeholder. `dict()` of a list keeps only string keys.
- Records.SetPosition: the SET clause and its values follow the order of the client's keys in `data`. The model numbers the columns in name, email, status order instead, so for `{"status": [..], "name": "A"}` it names parameter 2 where Python names parameter 1.
- Records.BindUpdates: when several SET values fail to bind, the model reports the first in name, email, status order, not in the order of the client's keys.
- SQLite's column type affinity is not modelled. In `fetch_customers`, a status given as a number never equals a TEXT status. In `update_customer_record`, a bound int or bool is stored as given, where SQLite converts it to text in a TEXT column (so a `name` of 42 reads back as "42").
- Records.Store.FetchCustomers: the contract does not state the row order, which SQLite leaves unspecified without ORDER BY.
- Records.Store.FetchTicketHistory: the order of tickets with equal `created_at` is not stated, as SQLite leaves it unspecified.
- Records.Store.CreateTicketRecord: rowid exhaustion and reuse are not modelled. The new id is the next rowid, which only grows.
- Server.CallTool: the contract describes the update and create replies through the new store state, not as the handler's result. It does not itself state that an advertised name never gets the unknown-tool text; `Coverage.AdvertisedToolsRouted` with `Server.FailureTextsDiffer` shows that.
- The model starts at `call_tool` and assumes the MCP framework passes `arguments` through without validating them against the advertised `inputSchema`. A framework version that validates would refuse some calls the model lets through, such as an `urgent` priority or a customer id sent as text, before `call_tool` runs.
- The agents, the demo script and the rest of the repository are outside this model.
