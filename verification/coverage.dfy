/** How the catalogue of mcp_server/mcp_server.py matches the dispatch of
    `call_tool`: each advertised tool has a branch, each branch is
    advertised once, and each schema describes what it requires. */
module Coverage {
  import opened Tools

  /** Every advertised tool has its branch in `call_tool`: none reaches the unknown-tool reply. */
  lemma AdvertisedToolsRouted()
    ensures forall t :: t in ListTools() ==> Route(t.name).Some?
  {
    var tools := ListTools();
    forall t | t in tools ensures Route(t.name).Some? {
      var i :| 0 <= i < |tools| && tools[i] == t;
      assert t.name == ToolName(CatalogueOrder[i]);
    }
  }

  /** Every branch of `call_tool` is advertised, at its place in the list. */
  lemma EveryToolAdvertised(k: ToolKind)
    ensures Position(k) < |ListTools()| && ListTools()[Position(k)].name == ToolName(k)
  {
    var tools := ListTools();
    assert tools[Position(k)] == ToolFor(k);
  }

  /** No name is advertised twice. */
  lemma AdvertisedNamesDistinct()
    ensures forall i, j :: 0 <= i < j < |ListTools()| ==> ListTools()[i].name != ListTools()[j].name
  {
    CatalogueOrderNamesDistinct();
  }

  /** Every argument a tool's input schema requires is one of the properties it describes. */
  lemma RequiredArgumentsDescribed(k: ToolKind)
    ensures forall n :: n in ToolFor(k).required ==> n in PropertyNames(ToolFor(k).properties)
  {
    var names := PropertyNames(InputProperties(k));
    match k
    case GetCustomer => assert names == ["customer_id"];
    case ListCustomers => assert names == ["status", "limit"];
    case UpdateCustomer => assert names == ["customer_id", "data"];
    case CreateTicket => assert names == ["customer_id", "issue", "priority"];
    case GetCustomerHistory => assert names == ["customer_id"];
    case ListActiveCustomersWithOpenTickets =>
  }
}
