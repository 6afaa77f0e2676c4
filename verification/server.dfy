/** The tool server of Connectwise_mcp.py: the API client's configuration and URL
    join, the query-parameter filter `_build_params`, the tool catalogue that
    `list_tools` announces and the name-to-endpoint dispatch of `call_tool`. */
module Server {
  import opened Wrappers
  import opened Json

  // ---------------------------------------------------------------------------
  // API client (ConnectWiseClient.__init__ and .get)
  // ---------------------------------------------------------------------------

  const DefaultApiUrl := "https://api-na.myconnectwise.net"
  const DefaultApiVersion := "v2023.2"
  const DefaultClientId := "mcp-connectwise-server"

  /** The process environment as `os.getenv` sees it: `None` for an unset variable. */
  datatype Environment = Environment(
    companyId: Option<string>,
    publicKey: Option<string>,
    privateKey: Option<string>,
    apiUrl: Option<string>,
    apiVersion: Option<string>,
    clientId: Option<string>)

  /** Why the client could not be built; either one stops the process at start-up. */
  datatype StartupError =
    | CredentialsNotConfigured   // the ValueError of the credentials check
    | CredentialsNotAscii        // `auth_string.encode('ascii')` fails

  /** The fields `__init__` sets once and nothing changes afterwards. */
  datatype Client = Client(baseUrl: string, headers: map<string, string>)

  /** `os.getenv(name, default)`: the default only replaces an unset variable. */
  function EnvOr(v: Option<string>, default: string): string
  {
    if v.Some? then v.value else default
  }

  /** A credential counts as configured when it is set and not empty (Python's `all`). */
  predicate Configured(v: Option<string>)
  {
    v.Some? && v.value != ""
  }

  predicate IsAscii(s: string)
  {
    forall i :: 0 <= i < |s| ==> s[i] as int < 128
  }

  /** The user name and password of Basic authentication, joined as `company+public:private`. */
  function AuthString(company: string, public: string, private: string): (s: string)
    ensures |s| == |company| + |public| + |private| + 2
    ensures s[|company|] == '+' && s[|company| + 1 + |public|] == ':'
    ensures s[..|company|] == company && s[|s| - |private|..] == private
    ensures s[|company| + 1..|company| + 1 + |public|] == public
  {
    company + "+" + public + ":" + private
  }

  /** `ConnectWiseClient()`; `base64` is the encoder of section 4 of RFC 4648,
      which is not modelled. */
  function NewClient(env: Environment, base64: string -> string): (r: Result<Client, StartupError>)
    ensures r.Failure? <==>
      !(Configured(env.companyId) && Configured(env.publicKey) && Configured(env.privateKey))
      || !IsAscii(AuthString(env.companyId.value, env.publicKey.value, env.privateKey.value))
    ensures r.Failure? && !(Configured(env.companyId) && Configured(env.publicKey) && Configured(env.privateKey))
      ==> r.error == CredentialsNotConfigured
    ensures r.Success? ==>
      && r.value.baseUrl == EnvOr(env.apiUrl, DefaultApiUrl) + "/" + EnvOr(env.apiVersion, DefaultApiVersion) + "/apis/3.0"
      && r.value.headers.Keys == {"Authorization", "Content-Type", "clientId", "Accept"}
      && r.value.headers["clientId"] == EnvOr(env.clientId, DefaultClientId)
      && r.value.headers["Authorization"] ==
           "Basic " + base64(AuthString(env.companyId.value, env.publicKey.value, env.privateKey.value))
      && r.value.headers["Content-Type"] == "application/json"
      && r.value.headers["Accept"] == "application/json"
  {
    if !(Configured(env.companyId) && Configured(env.publicKey) && Configured(env.privateKey)) then
      Failure(CredentialsNotConfigured)
    else
      var auth := AuthString(env.companyId.value, env.publicKey.value, env.privateKey.value);
      if !IsAscii(auth) then Failure(CredentialsNotAscii)
      else
        Success(Client(
          EnvOr(env.apiUrl, DefaultApiUrl) + "/" + EnvOr(env.apiVersion, DefaultApiVersion) + "/apis/3.0",
          map[
            "Authorization" := "Basic " + base64(auth),
            "Content-Type" := "application/json",
            "clientId" := EnvOr(env.clientId, DefaultClientId),
            "Accept" := "application/json"]))
  }

  /** Python's `s.lstrip('/')`: the suffix of `s` left after all its leading slashes. */
  function StripLeadingSlashes(s: string): (r: string)
    ensures |r| <= |s| && r == s[|s| - |r|..]
    ensures forall i :: 0 <= i < |s| - |r| ==> s[i] == '/'
    ensures r == [] || r[0] != '/'
    decreases |s|
  {
    if |s| > 0 && s[0] == '/' then StripLeadingSlashes(s[1..]) else s
  }

  /** Stripping twice strips nothing more. */
  lemma StripLeadingSlashesIdempotent(s: string)
    ensures StripLeadingSlashes(StripLeadingSlashes(s)) == StripLeadingSlashes(s)
  {
  }

  /** The URL `get` requests: the base URL, one slash, the endpoint without its leading slashes. */
  function RequestUrl(client: Client, endpoint: string): (url: string)
    ensures |url| == |client.baseUrl| + 1 + |StripLeadingSlashes(endpoint)|
    ensures url[..|client.baseUrl| + 1] == client.baseUrl + "/"
    ensures url[|client.baseUrl| + 1..] == StripLeadingSlashes(endpoint)
  {
    client.baseUrl + "/" + StripLeadingSlashes(endpoint)
  }

  /** However many slashes the endpoint starts with, exactly one separates it from the base. */
  lemma RequestUrlIgnoresLeadingSlashes(client: Client, endpoint: string)
    ensures RequestUrl(client, "/" + endpoint) == RequestUrl(client, endpoint)
  {
  }

  // ---------------------------------------------------------------------------
  // _build_params
  // ---------------------------------------------------------------------------

  /** The only keys a query can carry. */
  const QueryKeys: set<string> := {"conditions", "orderBy", "page", "pageSize"}

  /** Whether `_build_params` copies the key `k` of `args`: the filter and the order
      only when truthy, the paging keys whenever they are present. */
  predicate KeepsKey(args: map<string, Value>, k: string)
  {
    k in args && k in QueryKeys && (k == "page" || k == "pageSize" || PyTruthy(args[k]))
  }

  /** The query `_build_params` builds, as a whole (the reference for `BuildParams`). */
  function QueryParams(args: map<string, Value>): (params: map<string, Value>)
    ensures params.Keys <= QueryKeys
    ensures forall k :: k in params ==> k in args && params[k] == args[k]
  {
    map k | k in args && KeepsKey(args, k) :: args[k]
  }

  /** `_build_params`, inserting the four keys one after another as the source does. */
  method BuildParams(args: map<string, Value>) returns (params: map<string, Value>)
    ensures params == QueryParams(args)
    ensures params.Keys <= QueryKeys
    ensures forall k :: k in params ==> k in args && params[k] == args[k]
    ensures "conditions" in params <==> "conditions" in args && PyTruthy(args["conditions"])
    ensures "orderBy" in params <==> "orderBy" in args && PyTruthy(args["orderBy"])
    ensures "page" in params <==> "page" in args
    ensures "pageSize" in params <==> "pageSize" in args
  {
    params := map[];
    if "conditions" in args && PyTruthy(args["conditions"]) {
      params := params["conditions" := args["conditions"]];
    }
    if "orderBy" in args && PyTruthy(args["orderBy"]) {
      params := params["orderBy" := args["orderBy"]];
    }
    if "page" in args {
      params := params["page" := args["page"]];
    }
    if "pageSize" in args {
      params := params["pageSize" := args["pageSize"]];
    }
  }

  // ---------------------------------------------------------------------------
  // The tool catalogue and call_tool's dispatch
  // ---------------------------------------------------------------------------

  /** The names `list_tools` announces, in its order. */
  function ListTools(): (names: seq<string>)
    ensures |names| == 13
    ensures forall i, j :: 0 <= i < j < |names| ==> names[i] != names[j]
  {
    [ "connectwise_get_companies", "connectwise_get_company",
      "connectwise_get_tickets", "connectwise_get_ticket", "connectwise_get_ticket_notes",
      "connectwise_get_contacts", "connectwise_get_contact",
      "connectwise_get_opportunities", "connectwise_get_agreements",
      "connectwise_get_time_entries", "connectwise_get_projects",
      "connectwise_get_activities", "connectwise_get_members" ]
  }

  /** How a handled tool becomes a request. */
  datatype Shape =
    | Listing(endpoint: string)                 // fixed collection, query from `_build_params`
    | ById(collection: string, idKey: string)   // `<collection>/<id>`, no query
    | TicketNotes                               // `service/tickets/<id>/notes`, `pageSize` only

  datatype Entry = Entry(name: string, shape: Shape)

  /** The table `call_tool` implements, one entry per branch (the reference for `Route`). */
  const Catalogue: seq<Entry> := [
    Entry("connectwise_get_companies", Listing("company/companies")),
    Entry("connectwise_get_company", ById("company/companies", "company_id")),
    Entry("connectwise_get_tickets", Listing("service/tickets")),
    Entry("connectwise_get_ticket", ById("service/tickets", "ticket_id")),
    Entry("connectwise_get_ticket_notes", TicketNotes),
    Entry("connectwise_get_contacts", Listing("company/contacts")),
    Entry("connectwise_get_contact", ById("company/contacts", "contact_id")),
    Entry("connectwise_get_opportunities", Listing("sales/opportunities")),
    Entry("connectwise_get_agreements", Listing("finance/agreements")),
    Entry("connectwise_get_time_entries", Listing("time/entries")),
    Entry("connectwise_get_projects", Listing("project/projects")),
    Entry("connectwise_get_activities", Listing("sales/activities")),
    Entry("connectwise_get_members", Listing("system/members"))
  ]

  /** The shape of the first entry named `name`: the if/elif chain of `call_tool`
      tests the names in this order and takes the first branch that matches. */
  function Lookup(entries: seq<Entry>, name: string): Option<Shape>
  {
    if entries == [] then None
    else if entries[0].name == name then Some(entries[0].shape)
    else Lookup(entries[1..], name)
  }

  /** The names of a table, in order. */
  function Names(entries: seq<Entry>): (names: seq<string>)
    ensures |names| == |entries|
    ensures forall i :: 0 <= i < |entries| ==> names[i] == entries[i].name
  {
    seq(|entries|, i requires 0 <= i < |entries| => entries[i].name)
  }

  /** A name is found exactly when some entry carries it. */
  lemma {:induction false} LookupFindsListedNames(entries: seq<Entry>, name: string)
    ensures Lookup(entries, name).Some? <==> name in Names(entries)
    decreases |entries|
  {
    if entries != [] {
      LookupFindsListedNames(entries[1..], name);
      assert Names(entries) == [entries[0].name] + Names(entries[1..]);
    }
  }

  /** In a table without repeated names, each entry's name finds that entry. */
  lemma {:induction false} LookupFindsEntry(entries: seq<Entry>, i: nat)
    requires i < |entries|
    requires forall j, k :: 0 <= j < k < |entries| ==> entries[j].name != entries[k].name
    ensures Lookup(entries, entries[i].name) == Some(entries[i].shape)
    decreases i
  {
    if i > 0 {
      LookupFindsEntry(entries[1..], i - 1);
    }
  }

  /** The catalogue holds exactly the tools `list_tools` announces, in the same order. */
  lemma CatalogueNamesAreListed()
    ensures Names(Catalogue) == ListTools()
  {
  }

  /** A GET the client is asked to make; `params` is `None` where `get` is called without one. */
  datatype Call = Call(endpoint: string, params: Option<map<string, Value>>)

  /** Python's `str(v)` inside an f-string. The text of a list or dict depends on
      insertion order, which a map does not keep, so it is left to `repr`. */
  function PyStr(v: Value, repr: Value -> string): string
  {
    match v
    case Null => "None"
    case Bool(b) => if b then "True" else "False"
    case Num(n) => IntText(n)
    case Str(s) => s
    case Arr(_) => repr(v)
    case Obj(_) => repr(v)
  }

  /** The request a catalogue shape makes from the call's arguments (`arguments.get`
      yields `None` for a missing key). */
  function ShapeCall(shape: Shape, args: map<string, Value>, repr: Value -> string): Call
  {
    match shape
    case Listing(endpoint) => Call(endpoint, Some(QueryParams(args)))
    case ById(collection, idKey) => Call(collection + "/" + PyStr(GetOr(args, idKey, Null), repr), None)
    case TicketNotes =>
      Call("service/tickets/" + PyStr(GetOr(args, "ticket_id", Null), repr) + "/notes",
           Some(map["pageSize" := GetOr(args, "pageSize", Num(25))]))
  }

  /** The branch `call_tool` takes for `name`: the request it makes, or `None` for
      the unknown-tool branch, which makes none. */
  function Route(name: string, args: map<string, Value>, repr: Value -> string): (r: Option<Call>)
    ensures r.Some? <==> name in ListTools()
  {
    CatalogueNamesAreListed();
    LookupFindsListedNames(Catalogue, name);
    match Lookup(Catalogue, name)
    case None => None
    case Some(shape) => Some(ShapeCall(shape, args, repr))
  }

  /** Each catalogue entry's name takes the branch its shape describes. */
  lemma RouteEntry(i: nat, args: map<string, Value>, repr: Value -> string)
    requires i < |Catalogue|
    ensures Route(Catalogue[i].name, args, repr) == Some(ShapeCall(Catalogue[i].shape, args, repr))
  {
    CatalogueNamesAreListed();
    LookupFindsEntry(Catalogue, i);
  }

  /** A list tool sends `_build_params(arguments)` to its fixed endpoint. */
  lemma ListingRoute(i: nat, args: map<string, Value>, repr: Value -> string)
    requires i < |Catalogue| && Catalogue[i].shape.Listing?
    ensures Route(Catalogue[i].name, args, repr) == Some(Call(Catalogue[i].shape.endpoint, Some(QueryParams(args))))
  {
    RouteEntry(i, args, repr);
  }

  /** `connectwise_get_ticket_notes` asks for `service/tickets/<id>/notes` with only
      `pageSize`, 25 unless the arguments give one. */
  lemma TicketNotesRoute(args: map<string, Value>, repr: Value -> string)
    ensures Route("connectwise_get_ticket_notes", args, repr) ==
      Some(Call("service/tickets/" + PyStr(GetOr(args, "ticket_id", Null), repr) + "/notes",
                Some(map["pageSize" := if "pageSize" in args then args["pageSize"] else Num(25)])))
  {
  }

  /** A by-id tool requests `<collection>/<id>` with no query; a missing id is written `None`. */
  lemma ByIdRoute(i: nat, args: map<string, Value>, repr: Value -> string)
    requires i < |Catalogue| && Catalogue[i].shape.ById?
    ensures var c := Catalogue[i].shape;
      && Route(Catalogue[i].name, args, repr).Some?
      && Route(Catalogue[i].name, args, repr).value.params.None?
      && (c.idKey !in args ==> Route(Catalogue[i].name, args, repr).value.endpoint == c.collection + "/None")
      && (forall n :: GetOr(args, c.idKey, Null) == Num(n) ==>
            Route(Catalogue[i].name, args, repr).value.endpoint == c.collection + "/" + IntText(n))
  {
    RouteEntry(i, args, repr);
  }

  /** Two integer ids given to the same by-id tool reach different endpoints. */
  lemma ByIdRouteInjective(i: nat, m: int, n: int, repr: Value -> string)
    requires i < |Catalogue| && Catalogue[i].shape.ById?
    requires var k := Catalogue[i].shape.idKey;
      Route(Catalogue[i].name, map[k := Num(m)], repr) == Route(Catalogue[i].name, map[k := Num(n)], repr)
    ensures m == n
  {
    var c := Catalogue[i].shape;
    ByIdRoute(i, map[c.idKey := Num(m)], repr);
    ByIdRoute(i, map[c.idKey := Num(n)], repr);
    var e := Route(Catalogue[i].name, map[c.idKey := Num(m)], repr).value.endpoint;
    assert IntText(m) == e[|c.collection| + 1..] == IntText(n);
    IntTextInjective(m, n);
  }

  /** One item of `call_tool`'s result list. */
  datatype TextContent = TextContent(kind: string, text: Serialized)

  /** The error object `call_tool` reports, serialised without indentation. */
  function ErrorText(message: string): Serialized
  {
    Dumps(Obj(map["error" := Str(message)]), None)
  }

  /** `call_tool`. `backend` is the GET the client makes (URL and query in, decoded
      body or the exception's text out); `repr` is Python's text of a list or dict. */
  function CallTool(client: Client, name: string, args: map<string, Value>, repr: Value -> string,
                    backend: (string, Option<map<string, Value>>) -> Result<Value, string>): (r: seq<TextContent>)
    ensures |r| == 1 && r[0].kind == "text"
    ensures name !in ListTools() ==> r[0].text == ErrorText("Unknown tool: " + name)
    ensures r[0].text.indent == Some(2) <==>
      name in ListTools() && backend(RequestUrl(client, Route(name, args, repr).value.endpoint),
                                     Route(name, args, repr).value.params).Success?
    ensures r[0].text.indent != Some(2) ==> exists m :: r[0].text == ErrorText(m)
    ensures name in ListTools() ==>
      var c := Route(name, args, repr).value;
      var b := backend(RequestUrl(client, c.endpoint), c.params);
      r[0].text == (if b.Success? then Dumps(b.value, Some(2)) else ErrorText(b.error))
  {
    match Route(name, args, repr)
    case None => [TextContent("text", ErrorText("Unknown tool: " + name))]
    case Some(call) =>
      match backend(RequestUrl(client, call.endpoint), call.params)
      case Success(data) => [TextContent("text", Dumps(data, Some(2)))]
      case Failure(message) => [TextContent("text", ErrorText(message))]
  }

  /** An unknown tool never reaches the client: the reply is the same whatever the backend does. */
  lemma UnknownToolMakesNoRequest(client: Client, name: string, args: map<string, Value>, repr: Value -> string,
                                  backend1: (string, Option<map<string, Value>>) -> Result<Value, string>,
                                  backend2: (string, Option<map<string, Value>>) -> Result<Value, string>)
    requires name !in ListTools()
    ensures CallTool(client, name, args, repr, backend1) == CallTool(client, name, args, repr, backend2)
  {
  }
}
