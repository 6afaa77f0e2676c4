/** The Express bridge of bridge-server.js: the `tool_name` check, the JSON-RPC
    request it writes to the tool server, and the choice of reply once the server
    process has closed, made from its exit code, stdout and stderr. */
module Bridge {
  import opened Wrappers
  import opened Json

  /** An HTTP reply: its status and the value handed to `res.json` (`None` when that
      value is `undefined`, which sends no JSON document). */
  datatype HttpReply = HttpReply(status: int, body: Option<Value>)

  /** What the spawned server process left behind when it closed; `code` is `None`
      when the process was ended by a signal (Node reports `null`). */
  datatype ProcessResult = ProcessResult(code: Option<int>, stdout: string, stderr: string)

  // ---------------------------------------------------------------------------
  // The request (bridge-server.js, lines 27-52)
  // ---------------------------------------------------------------------------

  const ToolNameRequired := HttpReply(400, Some(Obj(map["error" := Str("tool_name is required")])))

  /** The JSON-RPC 2.0 `tools/call` request written to the server's stdin; falsy
      arguments (missing, null, 0, "", false) are sent as `{}`. */
  function McpRequest(toolName: Value, toolArguments: Option<Value>): (req: Value)
    ensures req.Obj? && req.fields.Keys == {"jsonrpc", "id", "method", "params"}
    ensures Prop(req, "jsonrpc") == Some(Str("2.0")) && Prop(req, "id") == Some(Num(1))
    ensures Prop(req, "method") == Some(Str("tools/call"))
    ensures var params := Prop(req, "params");
      && params.Some? && params.value.Obj? && params.value.fields.Keys == {"name", "arguments"}
      && Prop(params.value, "name") == Some(toolName)
      && Prop(params.value, "arguments") == Some(if JsTruthyOpt(toolArguments) then toolArguments.value else Obj(map[]))
  {
    Obj(map[
      "jsonrpc" := Str("2.0"),
      "id" := Num(1),
      "method" := Str("tools/call"),
      "params" := Obj(map[
        "name" := toolName,
        "arguments" := if JsTruthyOpt(toolArguments) then toolArguments.value else Obj(map[])])])
  }

  // ---------------------------------------------------------------------------
  // stdout.trim().split('\n')
  // ---------------------------------------------------------------------------

  /** The characters `String.prototype.trim` removes: ECMAScript's WhiteSpace and
      LineTerminator code points. */
  predicate IsJsSpace(c: char)
  {
    var k := c as int;
    k == 0x09 || k == 0x0A || k == 0x0B || k == 0x0C || k == 0x0D || k == 0x20 || k == 0xA0
    || k == 0x1680 || (0x2000 <= k <= 0x200A) || k == 0x2028 || k == 0x2029
    || k == 0x202F || k == 0x205F || k == 0x3000 || k == 0xFEFF
  }

  /** `s` without its leading white space. */
  function TrimStart(s: string): (r: string)
    ensures |r| <= |s| && r == s[|s| - |r|..]
    ensures forall i :: 0 <= i < |s| - |r| ==> IsJsSpace(s[i])
    ensures r == [] || !IsJsSpace(r[0])
    decreases |s|
  {
    if |s| > 0 && IsJsSpace(s[0]) then TrimStart(s[1..]) else s
  }

  /** `s` without its trailing white space. */
  function TrimEnd(s: string): (r: string)
    ensures |r| <= |s| && r == s[..|r|]
    ensures forall i :: |r| <= i < |s| ==> IsJsSpace(s[i])
    ensures r == [] || !IsJsSpace(r[|r| - 1])
    decreases |s|
  {
    if |s| > 0 && IsJsSpace(s[|s| - 1]) then TrimEnd(s[..|s| - 1]) else s
  }

  /** `s.trim()`: `s` without its leading and trailing white space. */
  function Trim(s: string): (r: string)
    ensures |r| <= |s|
    ensures r == [] || (!IsJsSpace(r[0]) && !IsJsSpace(r[|r| - 1]))
  {
    TrimEnd(TrimStart(s))
  }

  predicate AllJsSpace(w: string)
  {
    forall i :: 0 <= i < |w| ==> IsJsSpace(w[i])
  }

  /** Leading white space before a non-space start is exactly what `TrimStart` removes. */
  lemma {:induction false} TrimStartPadded(w: string, t: string)
    requires AllJsSpace(w)
    requires t == [] || !IsJsSpace(t[0])
    ensures TrimStart(w + t) == t
    decreases |w|
  {
    if w != [] {
      assert (w + t)[1..] == w[1..] + t;
      TrimStartPadded(w[1..], t);
    }
  }

  /** Trailing white space after a non-space end is exactly what `TrimEnd` removes. */
  lemma {:induction false} TrimEndPadded(t: string, w: string)
    requires AllJsSpace(w)
    requires t == [] || !IsJsSpace(t[|t| - 1])
    ensures TrimEnd(t + w) == t
    decreases |w|
  {
    if w != [] {
      assert (t + w)[..|t + w| - 1] == t + w[..|w| - 1];
      TrimEndPadded(t, w[..|w| - 1]);
    }
  }

  /** `trim` removes the white space around the text and nothing else. */
  lemma TrimPadded(w1: string, m: string, w2: string)
    requires AllJsSpace(w1) && AllJsSpace(w2)
    requires m == [] || (!IsJsSpace(m[0]) && !IsJsSpace(m[|m| - 1]))
    ensures Trim(w1 + m + w2) == m
  {
    if m == [] {
      assert w1 + m + w2 == w1 + w2;
      assert AllJsSpace(w1 + w2);
      TrimStartPadded(w1 + w2, []);
      assert w1 + w2 + [] == w1 + w2;
    } else {
      assert w1 + m + w2 == w1 + (m + w2);
      TrimStartPadded(w1, m + w2);
      TrimEndPadded(m, w2);
    }
  }

  /** `s.split('\n')`: the pieces between newlines; always at least one. */
  function Split(s: string): (parts: seq<string>)
    ensures |parts| >= 1
    ensures forall i :: 0 <= i < |parts| ==> '\n' !in parts[i]
    decreases |s|
  {
    if s == [] then [""]
    else
      var rest := Split(s[1..]);
      if s[0] == '\n' then [""] + rest
      else [[s[0]] + rest[0]] + rest[1..]
  }

  /** `parts.join(sep)`; with a newline separator, the inverse of `Split`. */
  function Join(parts: seq<string>, sep: string): string
    decreases |parts|
  {
    if parts == [] then "" else if |parts| == 1 then parts[0] else parts[0] + sep + Join(parts[1..], sep)
  }

  /** Splitting loses nothing: joining the pieces gives the text back. */
  lemma {:induction false} JoinSplit(s: string)
    ensures Join(Split(s), "\n") == s
    decreases |s|
  {
    if s != [] {
      JoinSplit(s[1..]);
      var rest := Split(s[1..]);
      if s[0] == '\n' {
        assert s == "\n" + s[1..];
      } else {
        var parts := Split(s);
        assert parts[1..] == rest[1..];
        if |rest| == 1 {
          assert s == [s[0]] + s[1..];
        } else {
          assert Join(rest, "\n") == rest[0] + "\n" + Join(rest[1..], "\n");
          assert s == [s[0]] + s[1..];
        }
      }
    }
  }

  /** Splitting text that starts with a newline-free piece `a`. */
  lemma {:induction false} SplitPrefix(a: string, t: string)
    requires '\n' !in a
    ensures Split(a + t) == [a + Split(t)[0]] + Split(t)[1..]
    decreases |a|
  {
    if a == [] {
      var p := Split(t);
      assert a + t == t && a + p[0] == p[0];
      assert p == [p[0]] + p[1..];
    } else {
      SplitPrefix(a[1..], t);
      assert a[0] in a;
      var s := a + t;
      assert s != [] && s[0] == a[0] != '\n';
      assert s[1..] == a[1..] + t;
      var rest := Split(s[1..]);
      assert rest == [a[1..] + Split(t)[0]] + Split(t)[1..];
      assert Split(s) == [[s[0]] + rest[0]] + rest[1..];
      assert [a[0]] + (a[1..] + Split(t)[0]) == a + Split(t)[0];
    }
  }

  /** Joining newline-free pieces and splitting again gives the same pieces. */
  lemma {:induction false} SplitJoin(parts: seq<string>)
    requires |parts| >= 1
    requires forall i :: 0 <= i < |parts| ==> '\n' !in parts[i]
    ensures Split(Join(parts, "\n")) == parts
    decreases |parts|
  {
    if |parts| == 1 {
      SplitPrefix(parts[0], "");
      assert parts[0] + "" == parts[0];
    } else {
      SplitJoin(parts[1..]);
      var t := "\n" + Join(parts[1..], "\n");
      SplitPrefix(parts[0], t);
      assert t[1..] == Join(parts[1..], "\n");
      assert Split(t) == [""] + parts[1..];
      assert parts[0] + "" == parts[0];
      assert Join(parts, "\n") == parts[0] + t;
    }
  }

  // ---------------------------------------------------------------------------
  // The scan for the response line (bridge-server.js, lines 82-96)
  // ---------------------------------------------------------------------------

  /** Whether a stdout line is the server's response: it parses, and the parsed value
      has `jsonrpc === '2.0'` and `id === 1`. A line that does not parse, or parses to
      `null` (reading a property of it throws), is skipped by the scan's catch. */
  predicate IsResponse(line: string, parse: string -> Option<Value>)
  {
    var parsed := parse(line);
    parsed.Some? && parsed.value != Null
    && Prop(parsed.value, "jsonrpc") == Some(Str("2.0")) && Prop(parsed.value, "id") == Some(Num(1))
  }

  /** The parsed first response line, if any (the reference for `FindResponse`). */
  function FirstResponse(lines: seq<string>, parse: string -> Option<Value>): Option<Value>
    decreases |lines|
  {
    if lines == [] then None
    else if IsResponse(lines[0], parse) then parse(lines[0])
    else FirstResponse(lines[1..], parse)
  }

  /** `FirstResponse` finds the first matching line and nothing else: `None` exactly
      when no line matches, otherwise the parse of a matching line with no match before it. */
  lemma {:induction false} FirstResponseIsFirstMatch(lines: seq<string>, parse: string -> Option<Value>)
    ensures FirstResponse(lines, parse).None? <==> forall i :: 0 <= i < |lines| ==> !IsResponse(lines[i], parse)
    ensures FirstResponse(lines, parse).Some? ==>
      exists i :: 0 <= i < |lines| && IsResponse(lines[i], parse)
        && FirstResponse(lines, parse) == parse(lines[i])
        && forall j :: 0 <= j < i ==> !IsResponse(lines[j], parse)
    decreases |lines|
  {
    if lines != [] && !IsResponse(lines[0], parse) {
      FirstResponseIsFirstMatch(lines[1..], parse);
      assert forall i :: 1 <= i < |lines| ==> lines[i] == lines[1..][i - 1];
      if FirstResponse(lines, parse).Some? {
        var k :| 0 <= k < |lines[1..]| && IsResponse(lines[1..][k], parse)
          && FirstResponse(lines[1..], parse) == parse(lines[1..][k])
          && forall j :: 0 <= j < k ==> !IsResponse(lines[1..][j], parse);
        assert forall j :: 0 <= j < k + 1 ==> !IsResponse(lines[j], parse) by {
          forall j | 0 <= j < k + 1 ensures !IsResponse(lines[j], parse) {
            if j > 0 { assert lines[j] == lines[1..][j - 1]; }
          }
        }
      }
    }
  }

  /** Lines after the first response never change the choice. */
  lemma {:induction false} LaterLinesIgnored(lines: seq<string>, more: seq<string>, parse: string -> Option<Value>)
    requires FirstResponse(lines, parse).Some?
    ensures FirstResponse(lines + more, parse) == FirstResponse(lines, parse)
    decreases |lines|
  {
    assert (lines + more)[0] == lines[0];
    if !IsResponse(lines[0], parse) {
      assert (lines + more)[1..] == lines[1..] + more;
      LaterLinesIgnored(lines[1..], more, parse);
    }
  }

  /** The scan as the source runs it: a loop over the lines that stops at the first match. */
  method FindResponse(lines: seq<string>, parse: string -> Option<Value>) returns (response: Option<Value>)
    ensures response == FirstResponse(lines, parse)
  {
    response := None;
    var i := 0;
    while i < |lines|
      invariant 0 <= i <= |lines|
      invariant FirstResponse(lines[i..], parse) == FirstResponse(lines, parse)
    {
      var parsed := parse(lines[i]);
      if parsed.Some? && parsed.value != Null
         && Prop(parsed.value, "jsonrpc") == Some(Str("2.0")) && Prop(parsed.value, "id") == Some(Num(1)) {
        response := parsed;
        assert lines[i..][0] == lines[i];
        break;
      }
      assert lines[i..][1..] == lines[i + 1..];
      i := i + 1;
    }
  }

  // ---------------------------------------------------------------------------
  // Choosing the reply (bridge-server.js, lines 70-134)
  // ---------------------------------------------------------------------------

  /** JavaScript's `String(v)`, which `JSON.parse` applies to a non-string argument;
      `None` is `undefined`. */
  function JsString(v: Option<Value>): string
  {
    if v.None? then "undefined" else JsText(v.value)
  }

  function JsText(v: Value): string
    decreases v
  {
    match v
    case Null => "null"
    case Bool(b) => if b then "true" else "false"
    case Num(n) => IntText(n)
    case Str(s) => s
    case Arr(xs) =>
      // Array.prototype.toString: the elements joined by ",", with null written as "".
      Join(seq(|xs|, i requires 0 <= i < |xs| => if xs[i] == Null then "" else JsText(xs[i])), ",")
    case Obj(_) => "[object Object]"
  }

  /** What `content.find(c => c.type === 'text')` does. */
  datatype TextSearch =
    | Found(item: Value)   // the first item whose `type` is 'text'
    | NoText               // no such item: `find` gives `undefined`
    | NullItem             // a `null` came first: reading its `type` throws

  predicate IsTextItem(c: Value)
  {
    Prop(c, "type") == Some(Str("text"))
  }

  function FindText(items: seq<Value>): (r: TextSearch)
    ensures r.Found? ==> IsTextItem(r.item) && r.item in items
    ensures r.NoText? ==> forall i :: 0 <= i < |items| ==> items[i] != Null && !IsTextItem(items[i])
    decreases |items|
  {
    if items == [] then NoText
    else if items[0] == Null then NullItem
    else if IsTextItem(items[0]) then Found(items[0])
    else FindText(items[1..])
  }

  const NullTypeMessage := "Cannot read properties of null (reading 'type')"

  /** The reply of the catch at the end of the close handler. */
  function ParseFailure(details: string): HttpReply
  {
    HttpReply(500, Some(Obj(map["error" := Str("Failed to parse MCP response"), "details" := Str(details)])))
  }

  /** The reply to a non-zero (or missing) exit code. */
  function ServerError(stderr: string): HttpReply
  {
    HttpReply(500, Some(Obj(map["error" := Str("MCP server error"), "details" := Str(stderr)])))
  }

  /** The reply to an error response: its message when truthy, else 'MCP error', and
      its code, left out when undefined. */
  function ErrorReply(error: Value): (r: HttpReply)
    ensures r.status == 500 && r.body.Some? && r.body.value.Obj? && "error" in r.body.value.fields
    ensures var message := Prop(error, "message");
      r.body.value.fields["error"] == if JsTruthyOpt(message) then message.value else Str("MCP error")
    ensures "code" in r.body.value.fields <==> Prop(error, "code").Some?
    ensures Prop(error, "code").Some? ==> r.body.value.fields["code"] == Prop(error, "code").value
    ensures r.body.value.fields.Keys <= {"error", "code"}
  {
    var message := Prop(error, "message");
    var code := Prop(error, "code");
    HttpReply(500, Some(Obj(
      map["error" := if JsTruthyOpt(message) then message.value else Str("MCP error")]
      + (if code.Some? then map["code" := code.value] else map[]))))
  }

  /** The reply made from the selected response (bridge-server.js, lines 102-126). */
  function SelectReply(response: Value, parse: string -> Option<Value>): (r: HttpReply)
    ensures r.status == 200 || r.status == 500
    ensures JsTruthyOpt(Prop(response, "error")) ==> r == ErrorReply(Prop(response, "error").value)
    ensures r.status == 500 ==> JsTruthyOpt(Prop(response, "error")) || r == ParseFailure(NullTypeMessage)
  {
    var error := Prop(response, "error");
    if JsTruthyOpt(error) then ErrorReply(error.value)
    else
      var result := Prop(response, "result");
      var content := if result.Some? then Prop(result.value, "content") else None;
      if JsTruthyOpt(result) && content.Some? && content.value.Arr? then
        match FindText(content.value.items)
        case NullItem => ParseFailure(NullTypeMessage)
        case NoText => HttpReply(200, result)
        case Found(item) =>
          var text := Prop(item, "text");
          match parse(JsString(text))
          case Some(data) => HttpReply(200, Some(data))
          case None => HttpReply(200, Some(Obj(if text.Some? then map["data" := text.value] else map[])))
      else HttpReply(200, result)
  }

  /** The close handler's reply, as a whole (the reference for `OnClose`). */
  function CloseReply(p: ProcessResult, parse: string -> Option<Value>): HttpReply
  {
    if p.code != Some(0) then ServerError(p.stderr)
    else
      match FirstResponse(Split(Trim(p.stdout)), parse)
      case None => ParseFailure("No valid MCP response found")
      case Some(response) => SelectReply(response, parse)
  }

  /** The close handler, step by step with its early returns. */
  method OnClose(p: ProcessResult, parse: string -> Option<Value>) returns (reply: HttpReply)
    ensures reply == CloseReply(p, parse)
    ensures p.code != Some(0) ==> reply == ServerError(p.stderr)
    ensures p.code == Some(0) && (forall i :: 0 <= i < |Split(Trim(p.stdout))| ==> !IsResponse(Split(Trim(p.stdout))[i], parse))
      ==> reply == ParseFailure("No valid MCP response found")
    ensures p.code == Some(0) && reply.status == 200 ==>
      exists i :: 0 <= i < |Split(Trim(p.stdout))| && IsResponse(Split(Trim(p.stdout))[i], parse)
  {
    if p.code != Some(0) {
      return ServerError(p.stderr);
    }
    var lines := Split(Trim(p.stdout));
    var response := FindResponse(lines, parse);
    FirstResponseIsFirstMatch(lines, parse);
    if response.None? {
      return ParseFailure("No valid MCP response found");
    }
    reply := SelectReply(response.value, parse);
  }

  /** The whole `/v1/tools/execute` handler; `run` is the server process, from the
      request written to its stdin to what it left when it closed. */
  function ExecuteReply(body: map<string, Value>, run: Value -> ProcessResult,
                        parse: string -> Option<Value>): (r: HttpReply)
    ensures r.status == 400 <==> "tool_name" !in body || !JsTruthy(body["tool_name"])
    ensures r.status == 400 ==> r == ToolNameRequired
    ensures "tool_name" in body && JsTruthy(body["tool_name"]) ==>
      r == CloseReply(run(McpRequest(body["tool_name"], if "arguments" in body then Some(body["arguments"]) else None)), parse)
  {
    var toolName := if "tool_name" in body then Some(body["tool_name"]) else None;
    var toolArguments := if "arguments" in body then Some(body["arguments"]) else None;
    if !JsTruthyOpt(toolName) then ToolNameRequired
    else CloseReply(run(McpRequest(toolName.value, toolArguments)), parse)
  }

  // ---------------------------------------------------------------------------
  // Properties of the handler
  // ---------------------------------------------------------------------------

  /** A falsy or missing `tool_name` is refused with 400 before any process runs:
      the reply does not depend on the process at all. */
  lemma MissingToolNameRunsNothing(body: map<string, Value>, run1: Value -> ProcessResult,
                                   run2: Value -> ProcessResult, parse: string -> Option<Value>)
    requires "tool_name" !in body || !JsTruthy(body["tool_name"])
    ensures ExecuteReply(body, run1, parse) == ExecuteReply(body, run2, parse) == ToolNameRequired
  {
  }

  /** A failed exit is reported with stderr whatever stdout holds. */
  lemma FailedExitIgnoresStdout(p: ProcessResult, stdout: string, parse: string -> Option<Value>)
    requires p.code != Some(0)
    ensures CloseReply(p, parse) == CloseReply(p.(stdout := stdout), parse) == ServerError(p.stderr)
  {
  }

  /** A response carrying a truthy `error` gives 500 whatever its `result` is. */
  lemma ErrorTakesPrecedence(fields: map<string, Value>, result: Value, parse: string -> Option<Value>)
    requires "error" in fields && JsTruthy(fields["error"])
    ensures SelectReply(Obj(fields), parse) == SelectReply(Obj(fields["result" := result]), parse)
    ensures SelectReply(Obj(fields), parse) == ErrorReply(fields["error"])
  {
  }

  /** With a clean exit but no stdout line that is the response, the handler reports
      that no valid response was found. */
  lemma NoResponseReply(p: ProcessResult, parse: string -> Option<Value>)
    requires p.code == Some(0)
    requires forall i :: 0 <= i < |Split(Trim(p.stdout))| ==> !IsResponse(Split(Trim(p.stdout))[i], parse)
    ensures CloseReply(p, parse) == ParseFailure("No valid MCP response found")
  {
    FirstResponseIsFirstMatch(Split(Trim(p.stdout)), parse);
  }

  /** When the result's content list has a text item before any null, the reply is
      that item's text parsed, or `{data: text}` when it does not parse. */
  lemma {:induction false} TextContentReply(fields: map<string, Value>, items: seq<Value>, k: nat,
                                            parse: string -> Option<Value>)
    requires "error" !in fields || !JsTruthy(fields["error"])
    requires "result" in fields && fields["result"].Obj?
    requires Prop(fields["result"], "content") == Some(Arr(items))
    requires k < |items| && IsTextItem(items[k])
    requires forall j :: 0 <= j < k ==> items[j] != Null && !IsTextItem(items[j])
    ensures var text := Prop(items[k], "text");
      SelectReply(Obj(fields), parse) ==
        if parse(JsString(text)).Some? then HttpReply(200, parse(JsString(text)))
        else HttpReply(200, Some(Obj(if text.Some? then map["data" := text.value] else map[])))
  {
    FindTextFirst(items, k);
  }

  /** `find` stops at the first text item when no null precedes it. */
  lemma {:induction false} FindTextFirst(items: seq<Value>, k: nat)
    requires k < |items| && IsTextItem(items[k])
    requires forall j :: 0 <= j < k ==> items[j] != Null && !IsTextItem(items[j])
    ensures FindText(items) == Found(items[k])
    decreases k
  {
    assert IsTextItem(items[k]) ==> items[k] != Null;
    if k > 0 {
      FindTextFirst(items[1..], k - 1);
    }
  }

  /** A result that the text branch does not handle: a missing or falsy result,
      one without a `content` array, or one whose content list holds neither a
      text item nor a null. */
  predicate Untouched(result: Option<Value>)
  {
    var content := if result.Some? then Prop(result.value, "content") else None;
    !JsTruthyOpt(result) || content.None? || !content.value.Arr?
    || PlainItems(content.value.items)
  }

  /** A content list with neither a text item nor a null. */
  predicate PlainItems(items: seq<Value>)
  {
    forall i :: 0 <= i < |items| ==> items[i] != Null && !IsTextItem(items[i])
  }

  /** Such a result is passed through as it is, with 200. */
  lemma RawResultPassedThrough(fields: map<string, Value>, parse: string -> Option<Value>)
    requires "error" !in fields || !JsTruthy(fields["error"])
    requires Untouched(Prop(Obj(fields), "result"))
    ensures SelectReply(Obj(fields), parse) == HttpReply(200, Prop(Obj(fields), "result"))
  {
    var result := Prop(Obj(fields), "result");
    if JsTruthyOpt(result) && Prop(result.value, "content").Some? && Prop(result.value, "content").value.Arr? {
      NoTextFound(Prop(result.value, "content").value.items);
    }
  }

  /** `find` finds nothing in a list with neither a text item nor a null. */
  lemma {:induction false} NoTextFound(items: seq<Value>)
    requires PlainItems(items)
    ensures FindText(items) == NoText
    decreases |items|
  {
    if items != [] {
      NoTextFound(items[1..]);
    }
  }

  /** A null content item met before any text item makes `find` throw, and the
      reply is the parse failure carrying V8's message. */
  lemma {:induction false} NullItemFirst(items: seq<Value>, k: nat)
    requires k < |items| && items[k] == Null
    requires forall j :: 0 <= j < k ==> items[j] != Null && !IsTextItem(items[j])
    ensures FindText(items) == NullItem
    decreases k
  {
    if k > 0 {
      NullItemFirst(items[1..], k - 1);
    }
  }

  /** With a truthy result whose content list has a null before any text item,
      the reply is 500 `Failed to parse MCP response`. */
  lemma NullItemReply(fields: map<string, Value>, items: seq<Value>, k: nat, parse: string -> Option<Value>)
    requires "error" !in fields || !JsTruthy(fields["error"])
    requires "result" in fields && fields["result"].Obj?
    requires Prop(fields["result"], "content") == Some(Arr(items))
    requires k < |items| && items[k] == Null
    requires forall j :: 0 <= j < k ==> items[j] != Null && !IsTextItem(items[j])
    ensures SelectReply(Obj(fields), parse) == ParseFailure(NullTypeMessage)
  {
    NullItemFirst(items, k);
  }
}
