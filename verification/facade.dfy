/** The facade of connectwise_tools.py: each `get_*` method turns its keyword
    arguments into an argument map and posts `{tool_name, arguments}` to the bridge,
    turning every request failure into an error object. */
module Facade {
  import opened Wrappers
  import opened Json

  /** The two settings of `Tools.Valves`, fixed once the facade is built. */
  datatype Valves = Valves(bridgeUrl: string, requestTimeout: int)

  const DefaultValves := Valves("http://connectwise-mcp-bridge:3002", 300)

  /** What `requests.post` gives back: an exception raised before a response
      arrived (connection, timeout, ...), or the response. */
  datatype Exchange =
    | RequestError(message: string)
    | Answered(status: int, reason: string, url: string, body: string)

  /** The bridge endpoint every method posts to. */
  function ExecuteUrl(valves: Valves): (url: string)
    ensures |url| == |valves.bridgeUrl| + |"/v1/tools/execute"|
    ensures url[..|valves.bridgeUrl|] == valves.bridgeUrl
    ensures url[|valves.bridgeUrl|..] == "/v1/tools/execute"
  {
    valves.bridgeUrl + "/v1/tools/execute"
  }

  /** The JSON body of the post. */
  function Payload(toolName: string, arguments: map<string, Value>): (p: Value)
    ensures p.Obj? && p.fields.Keys == {"tool_name", "arguments"}
    ensures Prop(p, "tool_name") == Some(Str(toolName))
    ensures Prop(p, "arguments") == Some(Obj(arguments))
  {
    Obj(map["tool_name" := Str(toolName), "arguments" := Obj(arguments)])
  }

  /** The text of the `HTTPError` that `raise_for_status` raises for a 4xx or 5xx
      status, and `None` for any other status, which it lets through. */
  function StatusError(status: int, reason: string, url: string): (r: Option<string>)
    ensures r.Some? <==> 400 <= status < 600
    ensures 400 <= status < 500 ==> r == Some(IntText(status) + " Client Error: " + reason + " for url: " + url)
    ensures 500 <= status < 600 ==> r == Some(IntText(status) + " Server Error: " + reason + " for url: " + url)
  {
    if 400 <= status < 500 then Some(IntText(status) + " Client Error: " + reason + " for url: " + url)
    else if 500 <= status < 600 then Some(IntText(status) + " Server Error: " + reason + " for url: " + url)
    else None
  }

  /** The error object a caught request exception becomes. */
  function RequestFailed(message: string): Value
  {
    Obj(map["error" := Str("Request failed: " + message)])
  }

  /** `_execute_tool`. `post` is `requests.post(url, json=payload, timeout=...)`;
      `decode` is `response.json()`, giving the text of its decode error on failure.
      Every failure on the way is returned, never raised. */
  function ExecuteTool(valves: Valves, toolName: string, arguments: map<string, Value>,
                       post: (string, Value, int) -> Exchange,
                       decode: string -> Result<Value, string>): (r: Value)
    ensures post(ExecuteUrl(valves), Payload(toolName, arguments), valves.requestTimeout).RequestError? ==>
      r == RequestFailed(post(ExecuteUrl(valves), Payload(toolName, arguments), valves.requestTimeout).message)
    ensures var x := post(ExecuteUrl(valves), Payload(toolName, arguments), valves.requestTimeout);
      x.Answered? && 400 <= x.status < 600 ==> r == RequestFailed(StatusError(x.status, x.reason, x.url).value)
    ensures var x := post(ExecuteUrl(valves), Payload(toolName, arguments), valves.requestTimeout);
      x.Answered? && !(400 <= x.status < 600) ==>
        r == match decode(x.body) case Success(v) => v case Failure(m) => RequestFailed(m)
  {
    match post(ExecuteUrl(valves), Payload(toolName, arguments), valves.requestTimeout)
    case RequestError(message) => RequestFailed(message)
    case Answered(status, reason, url, body) =>
      match StatusError(status, reason, url)
      case Some(message) => RequestFailed(message)
      case None =>
        match decode(body)
        case Success(v) => v
        case Failure(message) => RequestFailed(message)
  }

  // ---------------------------------------------------------------------------
  // The get_* methods
  // ---------------------------------------------------------------------------

  /** The nine search methods, which share one argument shape. */
  datatype ListTool = Companies | Tickets | Contacts | Opportunities | Agreements
                    | TimeEntries | Projects | Activities | Members

  /** The three methods that fetch one record by its id. */
  datatype ByIdTool = Company | Ticket | Contact

  /** What every server tool name starts with. */
  const ToolPrefix := "connectwise_get_"

  /** The server tool a search method names (`get_X` names `connectwise_get_X`). */
  function ListToolName(t: ListTool): (name: string)
    ensures |name| > |ToolPrefix| && name[..|ToolPrefix|] == ToolPrefix
  {
    match t
    case Companies => "connectwise_get_companies"
    case Tickets => "connectwise_get_tickets"
    case Contacts => "connectwise_get_contacts"
    case Opportunities => "connectwise_get_opportunities"
    case Agreements => "connectwise_get_agreements"
    case TimeEntries => "connectwise_get_time_entries"
    case Projects => "connectwise_get_projects"
    case Activities => "connectwise_get_activities"
    case Members => "connectwise_get_members"
  }

  /** The server tool a by-id method names (`get_X` names `connectwise_get_X`). */
  function ByIdToolName(t: ByIdTool): (name: string)
    ensures |name| > |ToolPrefix| && name[..|ToolPrefix|] == ToolPrefix
  {
    match t
    case Company => "connectwise_get_company"
    case Ticket => "connectwise_get_ticket"
    case Contact => "connectwise_get_contact"
  }

  /** The key a by-id method sends its id under: the record's noun, as in the
      tool name, followed by `_id`. */
  function IdKey(t: ByIdTool): (key: string)
    ensures |key| > 3 && key[|key| - 3..] == "_id"
    ensures ByIdToolName(t) == ToolPrefix + key[..|key| - 3]
  {
    match t
    case Company => "company_id"
    case Ticket => "ticket_id"
    case Contact => "contact_id"
  }

  const TicketNotesToolName := "connectwise_get_ticket_notes"

  /** No two facade methods send the same tool name. */
  lemma ToolNamesDistinct(t1: ListTool, t2: ListTool, u1: ByIdTool, u2: ByIdTool)
    ensures ListToolName(t1) == ListToolName(t2) ==> t1 == t2
    ensures ByIdToolName(u1) == ByIdToolName(u2) ==> u1 == u2
    ensures ListToolName(t1) != ByIdToolName(u1)
    ensures ListToolName(t1) != TicketNotesToolName && ByIdToolName(u1) != TicketNotesToolName
  {
  }

  /** The keyword arguments of a search method; `None` is an omitted keyword, so the
      Python default applies (an explicit `None` is `Some(Null)`). */
  datatype ListOptions = ListOptions(conditions: Option<Value>, orderBy: Option<Value>,
                                     page: Option<Value>, pageSize: Option<Value>)

  /** A keyword's value after Python binds its default. */
  function Bound(o: Option<Value>, default: Value): (v: Value)
    ensures o.Some? ==> v == o.value
    ensures o.None? ==> v == default
  {
    if o.Some? then o.value else default
  }

  /** The value sent under each key of the argument map: `order_by` travels as `orderBy`. */
  function OptionFor(o: ListOptions, key: string): Value
  {
    if key == "page" then Bound(o.page, Num(1))
    else if key == "pageSize" then Bound(o.pageSize, Num(25))
    else if key == "conditions" then Bound(o.conditions, Null)
    else Bound(o.orderBy, Null)
  }

  /** Whether the argument map carries `key`: paging always, the filter and the order
      only when truthy. */
  predicate SendsKey(o: ListOptions, key: string)
  {
    key == "page" || key == "pageSize"
    || ((key == "conditions" || key == "orderBy") && PyTruthy(OptionFor(o, key)))
  }

  /** The argument map of a search method, as a whole (the reference for
      `AssembleListArguments`). */
  function ListArguments(o: ListOptions): (args: map<string, Value>)
    ensures args.Keys <= {"page", "pageSize", "conditions", "orderBy"}
  {
    map k | k in {"page", "pageSize", "conditions", "orderBy"} && SendsKey(o, k) :: OptionFor(o, k)
  }

  /** The argument map of a search method, built as the source builds it: paging
      first, then the filter and the order when truthy. */
  method AssembleListArguments(o: ListOptions) returns (args: map<string, Value>)
    ensures args == ListArguments(o)
    ensures "page" in args && args["page"] == Bound(o.page, Num(1))
    ensures "pageSize" in args && args["pageSize"] == Bound(o.pageSize, Num(25))
    ensures "conditions" in args <==> o.conditions.Some? && PyTruthy(o.conditions.value)
    ensures "conditions" in args ==> args["conditions"] == o.conditions.value
    ensures "orderBy" in args <==> o.orderBy.Some? && PyTruthy(o.orderBy.value)
    ensures "orderBy" in args ==> args["orderBy"] == o.orderBy.value
    ensures args.Keys <= {"page", "pageSize", "conditions", "orderBy"}
  {
    var conditions := Bound(o.conditions, Null);
    var orderBy := Bound(o.orderBy, Null);
    args := map["page" := Bound(o.page, Num(1)), "pageSize" := Bound(o.pageSize, Num(25))];
    if PyTruthy(conditions) {
      args := args["conditions" := conditions];
    }
    if PyTruthy(orderBy) {
      args := args["orderBy" := orderBy];
    }
  }

  /** A search method with nothing but defaults sends page 1 of 25 results. */
  lemma DefaultListArguments()
    ensures ListArguments(ListOptions(None, None, None, None)) == map["page" := Num(1), "pageSize" := Num(25)]
  {
  }

  /** A search method (`get_companies`, `get_tickets`, ...): the argument map, the
      post, and the result serialised with indent 2. */
  method GetList(valves: Valves, t: ListTool, o: ListOptions,
                 post: (string, Value, int) -> Exchange,
                 decode: string -> Result<Value, string>) returns (out: Serialized)
    ensures out == Dumps(ExecuteTool(valves, ListToolName(t), ListArguments(o), post, decode), Some(2))
  {
    var args := AssembleListArguments(o);
    var result := ExecuteTool(valves, ListToolName(t), args, post, decode);
    out := Dumps(result, Some(2));
  }

  /** The argument map of a by-id method: the id under its key and nothing else. */
  function ByIdArguments(t: ByIdTool, id: Value): (args: map<string, Value>)
    ensures args.Keys == {IdKey(t)} && args[IdKey(t)] == id
  {
    map[IdKey(t) := id]
  }

  /** `get_company`, `get_ticket` and `get_contact`. */
  function GetById(valves: Valves, t: ByIdTool, id: Value,
                   post: (string, Value, int) -> Exchange,
                   decode: string -> Result<Value, string>): (r: Serialized)
    ensures r.indent == Some(2)
    ensures r == Dumps(ExecuteTool(valves, ByIdToolName(t), map[IdKey(t) := id], post, decode), Some(2))
    ensures post(ExecuteUrl(valves), Payload(ByIdToolName(t), map[IdKey(t) := id]), valves.requestTimeout).RequestError? ==>
      r.value == RequestFailed(post(ExecuteUrl(valves), Payload(ByIdToolName(t), map[IdKey(t) := id]), valves.requestTimeout).message)
  {
    Dumps(ExecuteTool(valves, ByIdToolName(t), ByIdArguments(t, id), post, decode), Some(2))
  }

  /** The argument map of `get_ticket_notes`: the ticket id and `pageSize`, 25 when omitted. */
  function TicketNotesArguments(ticketId: Value, pageSize: Option<Value>): (args: map<string, Value>)
    ensures args.Keys == {"ticket_id", "pageSize"}
    ensures args["ticket_id"] == ticketId && args["pageSize"] == Bound(pageSize, Num(25))
  {
    map["ticket_id" := ticketId, "pageSize" := Bound(pageSize, Num(25))]
  }

  /** `get_ticket_notes`. */
  function GetTicketNotes(valves: Valves, ticketId: Value, pageSize: Option<Value>,
                          post: (string, Value, int) -> Exchange,
                          decode: string -> Result<Value, string>): (r: Serialized)
    ensures r.indent == Some(2)
    ensures var args := map["ticket_id" := ticketId, "pageSize" := Bound(pageSize, Num(25))];
      r == Dumps(ExecuteTool(valves, TicketNotesToolName, args, post, decode), Some(2))
    ensures var args := map["ticket_id" := ticketId, "pageSize" := Bound(pageSize, Num(25))];
      post(ExecuteUrl(valves), Payload(TicketNotesToolName, args), valves.requestTimeout).RequestError? ==>
        r.value == RequestFailed(post(ExecuteUrl(valves), Payload(TicketNotesToolName, args), valves.requestTimeout).message)
  {
    Dumps(ExecuteTool(valves, TicketNotesToolName, TicketNotesArguments(ticketId, pageSize), post, decode), Some(2))
  }
}
