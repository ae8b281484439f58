/** The tools mcp_server/mcp_server.py serves: their names, the name lookup
    of `call_tool`'s if/elif chain, and the catalogue `list_tools` returns. */
module Tools {
  import opened Wrappers

  // ---------------------------------------------------------------------
  // Tool names

  datatype ToolKind =
    | GetCustomer
    | ListCustomers
    | UpdateCustomer
    | CreateTicket
    | GetCustomerHistory
    | ListActiveCustomersWithOpenTickets

  function ToolName(k: ToolKind): string {
    match k
    case GetCustomer => "get_customer"
    case ListCustomers => "list_customers"
    case UpdateCustomer => "update_customer"
    case CreateTicket => "create_ticket"
    case GetCustomerHistory => "get_customer_history"
    case ListActiveCustomersWithOpenTickets => "list_active_customers_with_open_tickets"
  }

  /** The if/elif chain of `call_tool`: the handler a name selects, if any. */
  function Route(name: string): (r: Option<ToolKind>)
    ensures r.Some? ==> ToolName(r.value) == name
    ensures forall k: ToolKind :: ToolName(k) == name ==> r == Some(k)
  {
    if name == "get_customer" then Some(GetCustomer)
    else if name == "list_customers" then Some(ListCustomers)
    else if name == "update_customer" then Some(UpdateCustomer)
    else if name == "create_ticket" then Some(CreateTicket)
    else if name == "get_customer_history" then Some(GetCustomerHistory)
    else if name == "list_active_customers_with_open_tickets" then Some(ListActiveCustomersWithOpenTickets)
    else None
  }

  // ---------------------------------------------------------------------
  // The catalogue (list_tools)

  datatype JsonType = JsonInteger | JsonString | JsonObject

  /** One entry of an input schema's `properties`. An empty `enumValues` means no `enum`. */
  datatype Property = Property(
    name: string,
    jsonType: JsonType,
    description: string,
    enumValues: seq<string>,
    minimum: Option<int>,
    additionalProperties: Option<bool>)

  datatype Tool = Tool(
    name: string,
    description: string,
    properties: seq<Property>,
    required: seq<string>,
    additionalProperties: Option<bool>)

  function PropertyNames(properties: seq<Property>): (r: seq<string>)
    ensures |r| == |properties|
    ensures forall i :: 0 <= i < |r| ==> r[i] == properties[i].name
  {
    if properties == [] then [] else [properties[0].name] + PropertyNames(properties[1..])
  }

  function CustomerIdProperty(description: string): Property {
    Property("customer_id", JsonInteger, description, [], None, None)
  }

  /** The catalogue entry of one tool. */
  function ToolFor(k: ToolKind): (t: Tool)
    ensures t.name == ToolName(k)
  {
    Tool(ToolName(k), ToolDescription(k), InputProperties(k), RequiredArguments(k),
         if k == ListActiveCustomersWithOpenTickets then Some(false) else None)
  }

  function ToolDescription(k: ToolKind): string {
    match k
    case GetCustomer => "Get a single customer by ID."
    case ListCustomers => "List customers filtered by status with optional limit."
    case UpdateCustomer => "Update customer fields by ID. Allowed keys in 'data': name, email, phone, status."
    case CreateTicket => "Create a new support ticket for a customer."
    case GetCustomerHistory => "Get all tickets for a customer (ticket history)."
    case ListActiveCustomersWithOpenTickets => "List all active customers who have at least one open ticket."
  }

  /** The `properties` of a tool's input schema. */
  function InputProperties(k: ToolKind): seq<Property> {
    match k
    case GetCustomer => [CustomerIdProperty("Customer ID (customers.id)")]
    case ListCustomers =>
      [Property("status", JsonString, "Customer status: 'active' or 'disabled'", ["active", "disabled"], None, None),
       Property("limit", JsonInteger, "Max rows to return (default 20).", [], Some(1), None)]
    case UpdateCustomer =>
      [CustomerIdProperty("Customer ID (customers.id)"),
       Property("data", JsonObject, "Fields to update. Allowed keys: name, email, phone, status.", [], None, Some(true))]
    case CreateTicket =>
      [CustomerIdProperty("Customer ID (tickets.customer_id)"),
       Property("issue", JsonString, "Ticket issue description.", [], None, None),
       Property("priority", JsonString, "Ticket priority.", ["low", "medium", "high"], None, None)]
    case GetCustomerHistory => [CustomerIdProperty("Customer ID to fetch ticket history for.")]
    case ListActiveCustomersWithOpenTickets => []
  }

  /** The `required` list of a tool's input schema. */
  function RequiredArguments(k: ToolKind): seq<string> {
    match k
    case GetCustomer => ["customer_id"]
    case ListCustomers => ["status"]
    case UpdateCustomer => ["customer_id", "data"]
    case CreateTicket => ["customer_id", "issue", "priority"]
    case GetCustomerHistory => ["customer_id"]
    case ListActiveCustomersWithOpenTickets => []
  }

  /** The tools in the order `list_tools` lists them. */
  const CatalogueOrder: seq<ToolKind> :=
    [GetCustomer, ListCustomers, UpdateCustomer, CreateTicket, GetCustomerHistory,
     ListActiveCustomersWithOpenTickets]

  function Position(k: ToolKind): (i: nat)
    ensures i < |CatalogueOrder| && CatalogueOrder[i] == k
  {
    match k
    case GetCustomer => 0
    case ListCustomers => 1
    case UpdateCustomer => 2
    case CreateTicket => 3
    case GetCustomerHistory => 4
    case ListActiveCustomersWithOpenTickets => 5
  }

  /** `list_tools` */
  function ListTools(): (r: seq<Tool>)
    ensures |r| == |CatalogueOrder|
    ensures forall i :: 0 <= i < |r| ==> r[i] == ToolFor(CatalogueOrder[i])
  {
    seq(|CatalogueOrder|, i requires 0 <= i < |CatalogueOrder| => ToolFor(CatalogueOrder[i]))
  }

  /** Tool names differ in length, so no two tools share one. */
  lemma ToolNameInjective(j: ToolKind, k: ToolKind)
    ensures ToolName(j) == ToolName(k) ==> j == k
  {
    if ToolName(j) == ToolName(k) {
      assert |ToolName(j)| == |ToolName(k)|;
    }
  }

  lemma CatalogueOrderNamesDistinct()
    ensures forall i, j :: 0 <= i < j < |CatalogueOrder| ==> ToolName(CatalogueOrder[i]) != ToolName(CatalogueOrder[j])
  {
    forall i, j | 0 <= i < j < |CatalogueOrder| ensures ToolName(CatalogueOrder[i]) != ToolName(CatalogueOrder[j]) {
      ToolNameInjective(CatalogueOrder[i], CatalogueOrder[j]);
    }
  }
}
