/** How the three programs fit together: what a facade method sends is what the
    bridge forwards and what the server's dispatch turns into a backend request. */
module Composition {
  import opened Wrappers
  import opened Json
  import opened Server
  import opened Facade
  import opened Bridge

  /** The catalogue entry of the server tool a search method names. */
  function ListEntryIndex(t: ListTool): (i: nat)
    ensures i < |Catalogue| && Catalogue[i].name == ListToolName(t) && Catalogue[i].shape.Listing?
  {
    match t
    case Companies => 0
    case Tickets => 2
    case Contacts => 5
    case Opportunities => 7
    case Agreements => 8
    case TimeEntries => 9
    case Projects => 10
    case Activities => 11
    case Members => 12
  }

  /** The catalogue entry of the server tool a by-id method names. */
  function ByIdEntryIndex(t: ByIdTool): (i: nat)
    ensures i < |Catalogue| && Catalogue[i].name == ByIdToolName(t)
    ensures Catalogue[i].shape.ById? && Catalogue[i].shape.idKey == IdKey(t)
  {
    match t
    case Company => 1
    case Ticket => 3
    case Contact => 6
  }

  /** Every tool name the facade sends is one the server announces and handles. */
  lemma FacadeNamesAreServed(t: ListTool, u: ByIdTool)
    ensures ListToolName(t) in ListTools()
    ensures ByIdToolName(u) in ListTools()
    ensures TicketNotesToolName in ListTools()
  {
  }

  /** Conversely, every tool the server announces is the one some facade method sends. */
  lemma ServerNamesAreSent(n: string)
    requires n in ListTools()
    ensures || (exists t :: ListToolName(t) == n)
            || (exists u :: ByIdToolName(u) == n)
            || n == TicketNotesToolName
  {
    var names := ListTools();
    var i :| 0 <= i < |names| && names[i] == n;
    var sender := [Some(Companies), None, Some(Tickets), None, None, Some(Contacts), None,
                    Some(Opportunities), Some(Agreements), Some(TimeEntries), Some(Projects),
                    Some(Activities), Some(Members)];
    if sender[i].Some? {
      assert ListToolName(sender[i].value) == n;
    } else if i == 1 {
      assert ByIdToolName(Company) == n;
    } else if i == 3 {
      assert ByIdToolName(Ticket) == n;
    } else if i == 6 {
      assert ByIdToolName(Contact) == n;
    }
  }

  /** A search method's argument map passes `_build_params` unchanged: the paging
      keys are always present and the filter and order only when truthy. */
  lemma ListArgumentsSurviveBuildParams(o: ListOptions)
    ensures QueryParams(ListArguments(o)) == ListArguments(o)
  {
  }

  /** A search method's call reaches the server's fixed endpoint with its argument
      map, unchanged, as the query. */
  lemma FacadeListCallRoutes(t: ListTool, o: ListOptions, repr: Value -> string)
    ensures Route(ListToolName(t), ListArguments(o), repr) ==
      Some(Call(Catalogue[ListEntryIndex(t)].shape.endpoint, Some(ListArguments(o))))
  {
    ListingRoute(ListEntryIndex(t), ListArguments(o), repr);
    ListArgumentsSurviveBuildParams(o);
  }

  /** A by-id method's integer id becomes the last path segment, with no query. */
  lemma FacadeByIdCallRoutes(t: ByIdTool, n: int, repr: Value -> string)
    ensures Route(ByIdToolName(t), ByIdArguments(t, Num(n)), repr) ==
      Some(Call(Catalogue[ByIdEntryIndex(t)].shape.collection + "/" + IntText(n), None))
  {
    var i := ByIdEntryIndex(t);
    RouteEntry(i, ByIdArguments(t, Num(n)), repr);
  }

  /** `get_ticket_notes` reaches `service/tickets/<id>/notes` with its own `pageSize`. */
  lemma FacadeTicketNotesRoutes(ticket: int, pageSize: Option<Value>, repr: Value -> string)
    ensures Route(TicketNotesToolName, TicketNotesArguments(Num(ticket), pageSize), repr) ==
      Some(Call("service/tickets/" + IntText(ticket) + "/notes",
                Some(map["pageSize" := Bound(pageSize, Num(25))])))
  {
  }

  /** The bridge passes a facade post on unchanged: it runs the server on a
      `tools/call` request naming the same tool with the same argument map. */
  lemma BridgeForwardsFacadePost(toolName: string, args: map<string, Value>,
                                 run: Value -> ProcessResult, parse: string -> Option<Value>)
    requires toolName != ""
    ensures ExecuteReply(Payload(toolName, args).fields, run, parse) ==
      CloseReply(run(McpRequest(Str(toolName), Some(Obj(args)))), parse)
    ensures var params := Prop(McpRequest(Str(toolName), Some(Obj(args))), "params").value;
      Prop(params, "name") == Some(Str(toolName)) && Prop(params, "arguments") == Some(Obj(args))
  {
  }

  /** `get_tickets(conditions='status/name="New"')` posts page 1, 25 per page and the filter. */
  lemma TicketsFilterExample()
    ensures var args := ListArguments(ListOptions(Some(Str("status/name=\"New\"")), None, None, None));
      Payload(ListToolName(Tickets), args) ==
        Obj(map["tool_name" := Str("connectwise_get_tickets"),
                "arguments" := Obj(map["page" := Num(1), "pageSize" := Num(25),
                                       "conditions" := Str("status/name=\"New\"")])])
  {
    var o := ListOptions(Some(Str("status/name=\"New\"")), None, None, None);
    var args := ListArguments(o);
    assert SendsKey(o, "page") && SendsKey(o, "pageSize") && SendsKey(o, "conditions");
    assert args == map["page" := Num(1), "pageSize" := Num(25), "conditions" := Str("status/name=\"New\"")];
  }

  /** `get_company(company_id=42)` reaches `company/companies/42` with no query. */
  lemma CompanyExample(repr: Value -> string)
    ensures Route(ByIdToolName(Company), ByIdArguments(Company, Num(42)), repr) ==
      Some(Call("company/companies/42", None))
  {
    FacadeByIdCallRoutes(Company, 42, repr);
    assert NatDigits(4) == "4";
    assert NatDigits(42) == NatDigits(4) + [DigitChar(2)] == "42";
    assert "company/companies" + "/" + "42" == "company/companies/42";
  }
}
