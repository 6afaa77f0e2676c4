# ConnectWise MCP adapter: a Dafny model

This project models the deterministic core of a read-only adapter. The adapter
exposes a ticketing/CRM REST API (ConnectWise Manage) as named tools for an agent
framework. Three programs cooperate:

- **The tool server** (`Connectwise_mcp.py`). `list_tools` announces 13 tools.
  `call_tool` dispatches a tool name to a REST endpoint. It builds the query with
  `_build_params` and makes one GET through `ConnectWiseClient`. Every outcome,
  including an unknown tool or a failed request, comes back as a JSON text item.
- **The facade** (`connectwise_tools.py`). Each `get_*` method turns its Python
  keyword arguments into an argument map. It posts `{tool_name, arguments}` to the
  bridge, and a failed request becomes `{"error": "Request failed: ..."}`.
- **The bridge** (`bridge-server.js`). It checks `tool_name` and writes a
  JSON-RPC 2.0 `tools/call` request to a freshly started server process. When the
  process closes, it picks the reply from the exit code, stdout and stderr.

Files:

- `wrappers.dfy`: `Option` and `Result`.
- `json.dfy`: JSON values (`Json.Value`) and the two languages' views of them.
  It covers Python and JavaScript truthiness (they differ on `[]` and `{}`), the
  JavaScript property read, `dict.get`, and the decimal text of an integer, with
  its round trip.
- `server.dfy`: module `Server`. It holds the client's configuration and URL join,
  `_build_params` and the reference function it is proved against, and the
  catalogue. `call_tool`'s if/elif chain is a first-match lookup over a 13-entry
  table in the same order. `call_tool` itself is also here.
- `facade.dfy`: module `Facade`. It holds `_execute_tool`, the argument maps of
  the search, by-id and ticket-notes methods, and the methods themselves.
- `bridge.dfy`: module `Bridge`. It holds the request, `trim` and `split` on
  stdout, the scan for the response line, and the choice of reply.
- `composition.dfy`: lemmas that join the three programs. A facade call is what
  the bridge forwards, and the server's dispatch turns it into a backend request.

I/O is modelled as function parameters:
- `backend`: the GET of the API client.
- `post`: `requests.post`.
- `decode`: `response.json()`.
- `parse`: JavaScript's `JSON.parse`; `None` means it throws.
- `run`: the spawned server process, from its stdin request to its exit code,
  stdout and stderr.
- `base64`: the encoder of section 4 of RFC 4648.
- `repr`: Python's text for a list or dict.

Python's `json.dumps` is kept symbolic: `Dumps(value, indent)` is the value it
encodes and the indentation it was asked for. The bridge's `res.json` replies are
kept as `HttpReply(status, body)`, the status and the value handed to `res.json`.

Three facts about the code worth keeping in mind:
- The server adds no `page`/`pageSize` defaults for search tools. Absent keys
  are omitted, so the backend's defaults apply. Only the facade supplies 1 and 25.
- A missing id is not rejected before the request. It is interpolated as the text
  `None`.
- The model covers the 13 tools `call_tool` dispatches, which are exactly the 13
  names `list_tools` returns.

## Model

| member | source | states |
|---|---|---|
| `Server.NewClient` | Connectwise_mcp.py:32-48 | fails when a credential is unset or empty, or the `company+public:private` string is not ASCII, and otherwise succeeds; on success the base URL is `API_URL/API_VERSION/apis/3.0` with the environment defaults, and the headers are exactly `Authorization: Basic <base64 of the auth string>`, `Content-Type` and `Accept` both `application/json`, and `clientId`, which defaults to `mcp-connectwise-server` |
| `Server.AuthString` | Connectwise_mcp.py:39 | the Basic-auth input is the company id, `+`, the public key, `:`, the private key: each part stated at its exact position |
| `Server.StripLeadingSlashes` | Connectwise_mcp.py:55 | `lstrip('/')` yields a suffix of the endpoint that does not start with `/`, and everything removed is `/` |
| `Server.StripLeadingSlashesIdempotent` | Connectwise_mcp.py:55 | stripping twice is the same as stripping once |
| `Server.RequestUrl` | Connectwise_mcp.py:53-55 | the URL is the base URL, one `/`, and then exactly the endpoint with its leading slashes stripped |
| `Server.RequestUrlIgnoresLeadingSlashes` | Connectwise_mcp.py:55 | an endpoint with an extra leading `/` gives the same URL |
| `Server.QueryParams` | Connectwise_mcp.py:503-519 | the query's keys are among conditions, orderBy, page and pageSize, and every value is copied unchanged from the arguments |
| `Server.BuildParams` | Connectwise_mcp.py:503-519 | the step-by-step insertion equals `QueryParams`; `conditions`/`orderBy` appear iff present and truthy (so `""` and `None` are dropped); `page`/`pageSize` appear iff present, even when falsy, and no defaults are added |
| `Server.ListTools` | Connectwise_mcp.py:84-408 | `list_tools` announces 13 distinct tool names |
| `Server.LookupFindsListedNames` | Connectwise_mcp.py:415-494 | the if/elif chain takes a handled branch exactly when the name is one of the table's names |
| `Server.LookupFindsEntry` | Connectwise_mcp.py:415-488 | with distinct names, each name selects its own branch, not an earlier one |
| `Server.CatalogueNamesAreListed` | Connectwise_mcp.py:86-408 | the names `call_tool` handles are exactly the names `list_tools` announces, in the same order |
| `Server.Route` | Connectwise_mcp.py:413-494 | a request is made exactly for the 13 listed names; every other name takes the unknown-tool branch |
| `Server.RouteEntry` | Connectwise_mcp.py:415-488 | each catalogue entry's name yields the request its shape describes |
| `Server.ListingRoute` | Connectwise_mcp.py:415-488 | a search tool requests its fixed endpoint (e.g. `service/tickets`, `system/members`) with `_build_params(arguments)` as the query |
| `Server.TicketNotesRoute` | Connectwise_mcp.py:436-441 | ticket notes requests `service/tickets/<id>/notes` with exactly `{pageSize}`, taken from the arguments or 25 |
| `Server.ByIdRoute` | Connectwise_mcp.py:420-452 | a by-id tool requests `<collection>/<id>` with no query; an integer id is written in decimal, and a missing id becomes `None` |
| `Server.ByIdRouteInjective` | Connectwise_mcp.py:420-452 | two different integer ids for one by-id tool give different endpoints |
| `Json.NatDigitsRoundTrip` | Connectwise_mcp.py:422 | the decimal text of an id reads back as the same number |
| `Json.IntTextInjective` | Connectwise_mcp.py:422 | different integers have different `str()` texts |
| `Server.CallTool` | Connectwise_mcp.py:410-501 | always one `text` item; an unlisted name gives exactly `{"error": "Unknown tool: <name>"}`; for a listed name the text is `json.dumps(data, indent=2)` of the body the backend returned for the routed URL and query, or `{"error": <exception text>}` when the backend failed; nothing is raised |
| `Server.UnknownToolMakesNoRequest` | Connectwise_mcp.py:490-494 | for an unknown tool the reply does not depend on the backend, so the client is not called |
| `Facade.ExecuteUrl` | connectwise_tools.py:32 | the post goes to the bridge URL followed by `/v1/tools/execute` |
| `Facade.Payload` | connectwise_tools.py:34-37 | the body has exactly the keys `tool_name` and `arguments`, holding the tool name and the argument map |
| `Facade.StatusError` | connectwise_tools.py:45 | `raise_for_status` raises exactly for statuses 400 to 599, with the text `<status> Client Error: <reason> for url: <url>` for 4xx and `<status> Server Error: ...` for 5xx |
| `Facade.ExecuteTool` | connectwise_tools.py:30-48 | a transport exception becomes `{"error": "Request failed: <msg>"}`, a 4xx/5xx status becomes `{"error": "Request failed: <raise_for_status text>"}`, and an undecodable body `{"error": "Request failed: <decode error>"}`; otherwise the decoded body is returned; nothing is raised |
| `Facade.ListArguments` | connectwise_tools.py:66-73 | a search method's map has no keys other than page, pageSize, conditions and orderBy |
| `Facade.AssembleListArguments` | connectwise_tools.py:66-73 | the map always has `page` and `pageSize` (defaults 1 and 25); `conditions`/`orderBy` only when given and truthy; `order_by` travels as `orderBy`; the result equals `ListArguments` |
| `Facade.DefaultListArguments` | connectwise_tools.py:50-69 | with no keywords the map is exactly `{page: 1, pageSize: 25}` |
| `Facade.GetList` | connectwise_tools.py:50-76 | a search method posts its argument map under its tool name and returns the reply serialised with indent 2 |
| `Facade.ListToolName` | connectwise_tools.py:75-343 | every search method names a tool starting with `connectwise_get_` (the nine names, at lines 75, 113, 165, 203, 231, 259, 287, 315 and 343) |
| `Facade.ByIdToolName` | connectwise_tools.py:85-175 | every by-id method names a tool starting with `connectwise_get_` (lines 85, 123 and 175) |
| `Facade.IdKey` | connectwise_tools.py:85-175 | the id key is the record's noun followed by `_id`, the same noun that ends the by-id tool name |
| `Facade.ToolNamesDistinct` | connectwise_tools.py:75-343 | no two facade methods send the same tool name |
| `Facade.ByIdArguments` | connectwise_tools.py:85 | a by-id method sends exactly one key, its id key, holding the id |
| `Facade.GetById` | connectwise_tools.py:78-86 | the reply is `ExecuteTool` of the by-id tool name and `{<id key>: id}`, serialised with indent 2; a request exception comes back as the `Request failed` object |
| `Facade.TicketNotesArguments` | connectwise_tools.py:134-137 | `get_ticket_notes` sends exactly `{ticket_id, pageSize}`, with pageSize defaulting to 25 |
| `Facade.GetTicketNotes` | connectwise_tools.py:126-138 | the reply is `ExecuteTool` of `connectwise_get_ticket_notes` and `{ticket_id, pageSize}` (pageSize 25 when omitted), serialised with indent 2; a request exception comes back as the `Request failed` object |
| `Bridge.McpRequest` | bridge-server.js:44-52 | the request is an object with exactly the keys `jsonrpc: '2.0'`, `id: 1`, `method: 'tools/call'` and `params`, and `params` has exactly `name` and `arguments`, where falsy arguments become `{}` |
| `Bridge.MissingToolNameRunsNothing` | bridge-server.js:27-31 | a missing or falsy `tool_name` gets 400 `{error: 'tool_name is required'}`, whatever the process would do |
| `Bridge.TrimStart` | bridge-server.js:82 | removes exactly the leading JavaScript white space |
| `Bridge.TrimEnd` | bridge-server.js:82 | removes exactly the trailing JavaScript white space |
| `Bridge.Trim` | bridge-server.js:82 | the trimmed text neither starts nor ends with white space |
| `Bridge.TrimStartPadded` | bridge-server.js:82 | leading white space before non-space text is exactly what is removed |
| `Bridge.TrimEndPadded` | bridge-server.js:82 | trailing white space after non-space text is exactly what is removed |
| `Bridge.TrimPadded` | bridge-server.js:82 | `trim` of text padded with white space is the text itself |
| `Bridge.Split` | bridge-server.js:82 | `split('\n')` gives at least one piece, and no piece contains a newline |
| `Bridge.JoinSplit` | bridge-server.js:82 | joining the pieces with newlines gives the stdout text back |
| `Bridge.SplitJoin` | bridge-server.js:82 | splitting newline-joined, newline-free lines gives those lines back |
| `Bridge.FirstResponseIsFirstMatch` | bridge-server.js:83-96 | the chosen line is the first one that parses with `jsonrpc === '2.0'` and `id === 1`; unparseable lines are skipped; there is no choice exactly when no line matches |
| `Bridge.LaterLinesIgnored` | bridge-server.js:86-92 | lines after the first match never change the choice |
| `Bridge.FindResponse` | bridge-server.js:83-96 | the loop with `break` returns the first matching line's parse |
| `Bridge.FindText` | bridge-server.js:114 | a found item has `type: 'text'` and comes from the list; "not found" means no item is null or a text item |
| `Bridge.FindTextFirst` | bridge-server.js:114 | `find` returns the first text item when no null comes before it |
| `Bridge.OnClose` | bridge-server.js:70-134 | equals the reference `CloseReply`; a non-zero or missing exit code gives 500 `{error: 'MCP server error', details: stderr}`; a clean exit with no matching stdout line gives 500 `{error: 'Failed to parse MCP response', details: 'No valid MCP response found'}`; a 200 reply means some stdout line matched |
| `Bridge.NoResponseReply` | bridge-server.js:97-133 | a clean exit where no stdout line is a `jsonrpc: '2.0'`, `id: 1` response gives 500 `{error: 'Failed to parse MCP response', details: 'No valid MCP response found'}` |
| `Bridge.ErrorReply` | bridge-server.js:102-107 | the reply is 500 with `error` set to the error's `message` when truthy, else `'MCP error'`, and `code` present exactly when the error defines one, with its value; no other keys |
| `Bridge.SelectReply` | bridge-server.js:102-126 | the status is 200 or 500; a truthy `error` gives `ErrorReply` of it; a 500 comes only from an error or a null item in the content list |
| `Bridge.ExecuteReply` | bridge-server.js:26-70 | 400 exactly when `tool_name` is missing or falsy, and then the `tool_name is required` reply; otherwise the close handler's reply for the process run on `McpRequest(tool_name, arguments)` |
| `Bridge.FailedExitIgnoresStdout` | bridge-server.js:71-78 | after a failed exit the reply does not depend on stdout |
| `Bridge.ErrorTakesPrecedence` | bridge-server.js:102-107 | a response with a truthy `error` gives exactly `ErrorReply` of that error, whatever its `result` holds |
| `Bridge.TextContentReply` | bridge-server.js:113-123 | with a content list whose first text item comes before any null, the reply is that item's text parsed, or `{data: text}` if it does not parse |
| `Bridge.RawResultPassedThrough` | bridge-server.js:109-126 | with no truthy error, a result the text branch does not handle is returned unchanged with 200: a missing or falsy result, a result whose `content` is missing or not an array, or a content list with neither a text item nor a null (including `[]`) |
| `Bridge.NoTextFound` | bridge-server.js:114 | `find` finds nothing in a list that holds neither a text item nor a null |
| `Bridge.NullItemFirst` | bridge-server.js:114 | a null item met before any text item makes `find` throw |
| `Bridge.NullItemReply` | bridge-server.js:113-133 | a content list with a null before any text item gives 500 `{error: 'Failed to parse MCP response', details: "Cannot read properties of null (reading 'type')"}` |
| `Composition.FacadeNamesAreServed` | connectwise_tools.py:75-343 | every tool name the facade sends is one the server lists and handles |
| `Composition.ServerNamesAreSent` | Connectwise_mcp.py:84-408 | conversely, every tool the server lists is the one some facade method sends |
| `Composition.ListArgumentsSurviveBuildParams` | connectwise_tools.py:66-73 | `_build_params` applied to a search method's argument map returns the same map |
| `Composition.FacadeListCallRoutes` | Connectwise_mcp.py:415-488 | a facade search call reaches the server's fixed endpoint with its argument map, unchanged, as the query |
| `Composition.FacadeByIdCallRoutes` | Connectwise_mcp.py:420-452 | a facade by-id call with integer id `n` reaches `<collection>/<n>` with no query |
| `Composition.FacadeTicketNotesRoutes` | connectwise_tools.py:134-137 | `get_ticket_notes` reaches `service/tickets/<id>/notes` with its own pageSize (default 25) |
| `Composition.BridgeForwardsFacadePost` | bridge-server.js:27-52 | the bridge runs the server on a `tools/call` request with the facade's tool name and argument map unchanged |
| `Composition.TicketsFilterExample` | connectwise_tools.py:104-113 | `get_tickets(conditions='status/name="New"')` posts `{tool_name: connectwise_get_tickets, arguments: {page: 1, pageSize: 25, conditions: ...}}` |
| `Composition.CompanyExample` | Connectwise_mcp.py:420-423 | `get_company(42)` requests `company/companies/42` with no query |

## Left out

- HTTP transport is not modelled: httpx, `requests.post`, the Express server, CORS, the port and the health endpoint. The backend, the post and the process are function parameters.
- Process handling is not modelled: spawning, writing stdin, and gathering stdout/stderr from `data` events. The model starts from the final exit code, stdout and stderr.
- The bridge's `error` handler (process failed to start) is not modelled, nor is the outer `catch` around spawning.
- async/await and the MCP `Server`/`stdio_server` hooks are foreign framework code. This includes the framework's JSON-RPC handshake: the bridge sends only `tools/call`, and what the server does with that is the framework's business.
- `call_tool` arguments are modelled as a dict. The framework's handling of a missing or non-dict argument value is not modelled.
- `json.dumps`, `res.json`/`JSON.stringify`, `JSON.parse` and `response.json()` are kept symbolic or passed in as parameters. No serialiser or parser is defined.
- Server.NewClient: does not model httpx refusing a header value it cannot encode (a non-ASCII `CW_CLIENT_ID` at Connectwise_mcp.py:50), because the header encoding is httpx's own code; such an environment succeeds in the model.
- Base64 encoding of the Authorization header is a parameter; only its input string is stated.
- Query-string encoding of the params map by httpx is not modelled, including how it writes a `None` value.
- The error texts of Python and JavaScript exceptions are not modelled: httpx errors, `requests` transport errors and JSON decode errors. They arrive as the strings the parameters return. The exceptions are the `HTTPError` text of `raise_for_status` and V8's text for reading a property of `null`, which are written out.
- Numbers are integers. Floating point, and JavaScript's formatting of numbers beyond 2^53 or in exponent form, are not modelled.
- Maps do not keep insertion order, so key order in JSON output and Python's text of a list or dict (left to `repr`) are not modelled.
- Environment loading and logging are not modelled, nor are the tool descriptions and input schemas of `list_tools`. Only the environment's values and the tool names are kept.
- The bridge's request body is modelled as a JSON object, which is what `express.json()` hands the handler for these posts.
- `Facade.ExecuteTool` assumes a `requests` release in which `response.json()` raises a `RequestException` subclass (2.27 and later), so a bad body is caught like any other request failure.
