/** The JSON-RPC 2.0 server of src/mcp.js: what it writes for each line it
    reads on standard input, how it dispatches tool calls, and the server
    object whose output grows one reply per line until `shutdown`. */
module Mcp {
  import opened Wrappers
  import opened JsValues

  /** A registered tool. The registry is an object keyed by tool name;
      here it is the sequence of its values in insertion order, and a
      tool's key is its `name`. */
  datatype Tool = Tool(
    name: string,
    description: string,
    inputSchema: Option<Json>,
    outputSchema: Option<Json>,
    handler: Json -> Completion<Json>)

  /** One line of input: text `JSON.parse` rejects, or the value it yields. */
  datatype Line = Malformed | Parsed(msg: Json)

  // ---- the messages the server writes ----

  /** `{ jsonrpc: "2.0", id, <member> }` as `JSON.stringify` writes it: an
      undefined `id` leaves the key out. */
  function Response(id: Option<Json>, member: Field): Json
  {
    JObj([Field("jsonrpc", JStr("2.0"))] + (if id.Some? then [Field("id", id.value)] else []) + [member])
  }

  function ResultResponse(id: Option<Json>, result: Json): Json
  {
    Response(id, Field("result", result))
  }

  function ErrorResponse(id: Option<Json>, code: Json, message: string): Json
  {
    Response(id, Field("error", JObj([Field("code", code), Field("message", JStr(message))])))
  }

  /** The event written once at startup. */
  function StartupEvent(pid: int): Json
  {
    JObj([
      Field("jsonrpc", JStr("2.0")),
      Field("method", JStr("event")),
      Field("params", JObj([Field("type", JStr("initialized")), Field("pid", JNum(pid))]))])
  }

  const InitializeResult := JObj([
    Field("protocolVersion", JStr("2024-11-05")),
    Field("capabilities", JObj([Field("tools", JObj([]))])),
    Field("serverInfo", JObj([Field("name", JStr("mealie-mcp-server")), Field("version", JStr("0.1.0"))]))])

  const ShutdownResult := JObj([Field("ok", JBool(true))])

  /** The input schema listed for a tool that declares none. */
  const DefaultInputSchema := JObj([Field("type", JStr("object")), Field("properties", JObj([]))])

  function ToolEntry(t: Tool): Json
  {
    JObj([
      Field("name", JStr(t.name)),
      Field("description", JStr(t.description)),
      Field("inputSchema", OrElse(t.inputSchema, DefaultInputSchema))])
  }

  /** `formatTools()`: one entry per registered tool, in order. */
  function FormatTools(tools: seq<Tool>): seq<Json>
  {
    seq(|tools|, i requires 0 <= i < |tools| => ToolEntry(tools[i]))
  }

  // ---- tools/call ----

  /** The position of the registered tool named `key`. */
  function FindTool(tools: seq<Tool>, key: string): (r: Option<nat>)
    ensures r.Some? ==> r.value < |tools| && tools[r.value].name == key
    ensures r.Some? ==> forall j :: 0 <= j < r.value ==> tools[j].name != key
    ensures r.None? ==> forall i :: 0 <= i < |tools| ==> tools[i].name != key
  {
    if tools == [] then None
    else if tools[0].name == key then Some(0)
    else
      match FindTool(tools[1..], key)
      case None => None
      case Some(i) => Some(i + 1)
  }

  /** Which handler a call ran, and with which arguments. */
  datatype Invocation = Invocation(tool: nat, args: Json)

  datatype ToolCall = ToolCall(invoked: Option<Invocation>, outcome: Completion<Json>)

  function UnknownTool(name: Option<Json>): JsError
  {
    ErrorWithCode("Unknown tool '" + JsString(name) + "'", JNum(-32601))
  }

  /** `callTool({ name, args })` looking `name` up among the registered
      tools only: a name that cannot be made a property key throws, an
      unknown name fails with -32601, a known one runs its handler with
      `args || {}`. */
  function CallTool(tools: seq<Tool>, params: Json): ToolCall
  {
    var name := Prop(params, "name");
    if !Truthy(name) then ToolCall(None, Throw(UnknownTool(name)))
    else if Unconvertible(name) then ToolCall(None, Throw(CannotConvertToPrimitive))
    else
      match FindTool(tools, ValueString(name.value))
      case None => ToolCall(None, Throw(UnknownTool(name)))
      case Some(i) =>
        var args := OrElse(Prop(params, "args"), JObj([]));
        ToolCall(Some(Invocation(i, args)), tools[i].handler(args))
  }

  /** The names every plain object inherits from `Object.prototype`. */
  const InheritedNames: set<string> := {
    "constructor", "__proto__", "hasOwnProperty", "isPrototypeOf", "propertyIsEnumerable",
    "toString", "valueOf", "toLocaleString",
    "__defineGetter__", "__defineSetter__", "__lookupGetter__", "__lookupSetter__"}

  /** `callTool` as written: `tools[name]` also finds the inherited
      members of the registry object, whose `handler` is undefined. */
  function CallToolAsWritten(tools: seq<Tool>, params: Json): ToolCall
  {
    var name := Prop(params, "name");
    if Truthy(name) && !Unconvertible(name)
       && FindTool(tools, ValueString(name.value)).None? && ValueString(name.value) in InheritedNames
    then ToolCall(None, Throw(NotAFunction("tools[name].handler")))
    else CallTool(tools, params)
  }

  /** A call runs a handler exactly when its name is truthy, converts to
      a property key and names a registered tool; it then runs that tool's
      handler with `args`, or `{}` when `args` is falsy, and ends as the
      handler does. A truthy name that does not convert throws the
      TypeError of the conversion; any other name fails with -32601 naming
      the tool. */
  lemma CallToolDispatch(tools: seq<Tool>, params: Json)
    ensures var name := Prop(params, "name");
      var call := CallTool(tools, params);
      && (call.invoked.Some? <==>
            Truthy(name) && !Unconvertible(name) && exists i :: 0 <= i < |tools| && tools[i].name == ValueString(name.value))
      && (call.invoked.Some? ==>
            var inv := call.invoked.value;
            && inv.tool < |tools| && tools[inv.tool].name == ValueString(name.value)
            && inv.args == (if Truthy(Prop(params, "args")) then Prop(params, "args").value else JObj([]))
            && call.outcome == tools[inv.tool].handler(inv.args))
      && (Truthy(name) && Unconvertible(name) ==> call.outcome == Throw(CannotConvertToPrimitive))
      && (call.invoked.None? && !(Truthy(name) && Unconvertible(name)) ==>
            call.outcome == Throw(ErrorWithCode("Unknown tool '" + JsString(name) + "'", JNum(-32601))))
  {
  }

  /** A name whose own `toString` member is not a function cannot be made
      a property key: both the call as written and the corrected one throw
      the TypeError of the conversion, which the server reports with
      -32000. */
  lemma UnconvertibleNameThrows(tools: seq<Tool>)
    ensures var params := JObj([Field("name", JObj([Field("toString", JNum(1))]))]);
      && CallToolAsWritten(tools, params).outcome == Throw(CannotConvertToPrimitive)
      && CallTool(tools, params).outcome == Throw(CannotConvertToPrimitive)
      && CaughtCode(CannotConvertToPrimitive) == JNum(-32000)
      && CaughtMessage(CannotConvertToPrimitive) == "Cannot convert object to primitive value"
  {
    var name := JObj([Field("toString", JNum(1))]);
    var params := JObj([Field("name", name)]);
    LookupAt(params.fields, 0);
    assert Prop(params, "name") == Some(name);
    LookupAt(name.fields, 0);
    assert StringThrows(name);
  }

  /** Naming an inherited member instead of a tool: as written the call
      fails with a TypeError, which the server reports with -32000, where an
      unknown tool should get -32601. */
  lemma InheritedNameAsWritten(tools: seq<Tool>)
    requires forall i :: 0 <= i < |tools| ==> tools[i].name != "constructor"
    ensures var params := JObj([Field("name", JStr("constructor"))]);
      var asWritten := CallToolAsWritten(tools, params).outcome;
      var corrected := CallTool(tools, params).outcome;
      && asWritten.Throw? && CaughtCode(asWritten.error) == JNum(-32000)
      && CaughtMessage(asWritten.error) == "tools[name].handler" + " is not a function"
      && corrected.Throw? && CaughtCode(corrected.error) == JNum(-32601)
      && CaughtMessage(corrected.error) == "Unknown tool '" + "constructor" + "'"
  {
    var params := JObj([Field("name", JStr("constructor"))]);
    LookupAt(params.fields, 0);
    assert Prop(params, "name") == Some(JStr("constructor"));
    assert ValueString(JStr("constructor")) == "constructor";
    assert FindTool(tools, "constructor").None?;
    assert CallToolAsWritten(tools, params).outcome == Throw(NotAFunction("tools[name].handler"));
    assert CallTool(tools, params).outcome == Throw(UnknownTool(Some(JStr("constructor"))));
  }

  // ---- handleRequest ----

  /** The code of a caught error: its `code` when that is a number, else
      -32000. */
  function CaughtCode(e: JsError): Json
  {
    if e.code.Some? && e.code.value.JNum? then e.code.value else JNum(-32000)
  }

  /** The message of a caught error: `e.message || String(e)`. */
  function CaughtMessage(e: JsError): string
  {
    if e.message != "" then e.message else ErrorToString(e)
  }

  /** The method of a request when it is a non-empty string. */
  function MethodName(msg: Json): Option<string>
  {
    var requested := Prop(msg, "method");
    if Truthy(requested) && requested.value.JStr? then Some(requested.value.s) else None
  }

  /** What `handleRequest(msg)` writes. */
  function RequestReply(tools: seq<Tool>, msg: Json): Json
  {
    var id := Prop(msg, "id");
    match MethodName(msg)
    case None => ErrorResponse(Some(Coalesce(id, JNull)), JNum(-32600), "Invalid Request: missing method")
    case Some(requested) =>
      if requested == "initialize" then ResultResponse(id, InitializeResult)
      else if requested == "tools/list" then ResultResponse(id, JObj([Field("tools", JArr(FormatTools(tools)))]))
      else if requested == "tools/call" then
        match CallTool(tools, OrElse(Prop(msg, "params"), JObj([]))).outcome
        case Normal(result) => ResultResponse(id, result)
        case Throw(e) => ErrorResponse(id, CaughtCode(e), CaughtMessage(e))
      else if requested == "ping" then ResultResponse(id, JObj([]))
      else if requested == "shutdown" then ResultResponse(id, ShutdownResult)
      else ErrorResponse(id, JNum(-32601), "Unknown method '" + requested + "'")
  }

  predicate IsShutdown(msg: Json)
  {
    MethodName(msg) == Some("shutdown")
  }

  // ---- the line handler ----

  /** A parsed message is handled as a request when it is truthy, its
      `jsonrpc` is "2.0" and it has a truthy `method` or any `id`. */
  predicate PassesEnvelope(msg: Json)
  {
    && Truthy(Some(msg))
    && Prop(msg, "jsonrpc") == Some(JStr("2.0"))
    && (Truthy(Prop(msg, "method")) || Prop(msg, "id").Some?)
  }

  /** What the server writes for one line. */
  function Reply(tools: seq<Tool>, line: Line): Json
  {
    match line
    case Malformed => ErrorResponse(Some(JNull), JNum(-32700), "Parse error")
    case Parsed(msg) =>
      if PassesEnvelope(msg) then RequestReply(tools, msg)
      else ErrorResponse(Some(Coalesce(Prop(msg, "id"), JNull)), JNum(-32600), "Invalid Request")
  }

  /** Whether handling the line shuts the server down. */
  predicate Stops(line: Line)
  {
    line.Parsed? && PassesEnvelope(line.msg) && IsShutdown(line.msg)
  }

  ghost predicate StopsWithin(lines: seq<Line>)
  {
    exists i :: 0 <= i < |lines| && Stops(lines[i])
  }

  /** Everything written after the startup event for the input `lines`:
      one reply per line up to and including the first shutdown. */
  function Transcript(tools: seq<Tool>, lines: seq<Line>): seq<Json>
  {
    if lines == [] then []
    else [Reply(tools, lines[0])] + (if Stops(lines[0]) then [] else Transcript(tools, lines[1..]))
  }

  // ---- properties of single replies ----

  function ErrorCode(reply: Json): Option<Json>
  {
    var error := Prop(reply, "error");
    if error.Some? then Prop(error.value, "code") else None
  }

  function ErrorMessage(reply: Json): Option<Json>
  {
    var error := Prop(reply, "error");
    if error.Some? then Prop(error.value, "message") else None
  }

  /** A JSON-RPC response: "jsonrpc" is "2.0", and it has exactly one of
      `result` and `error`, an error carrying a numeric code and a string
      message. */
  predicate WellFormedResponse(reply: Json)
  {
    && reply.JObj?
    && Lookup(reply.fields, "jsonrpc") == Some(JStr("2.0"))
    && Lookup(reply.fields, "method").None?
    && (Lookup(reply.fields, "result").Some? != Lookup(reply.fields, "error").Some?)
    && (Lookup(reply.fields, "error").Some? ==>
          ErrorCode(reply).Some? && ErrorCode(reply).value.JNum?
          && ErrorMessage(reply).Some? && ErrorMessage(reply).value.JStr?)
  }

  lemma ResponseMembers(id: Option<Json>, member: Field)
    requires member.key !in {"jsonrpc", "id", "method"}
    ensures var r := Response(id, member);
      && Lookup(r.fields, "jsonrpc") == Some(JStr("2.0"))
      && Lookup(r.fields, "id") == id
      && Lookup(r.fields, "method").None?
      && Lookup(r.fields, member.key) == Some(member.value)
      && Keys(r.fields) == {"jsonrpc", member.key} + (if id.Some? then {"id"} else {})
  {
    var f := Response(id, member).fields;
    var n := |f|;
    assert f[0] == Field("jsonrpc", JStr("2.0")) && f[n - 1] == member;
    LookupAt(f, 0);
    LookupAt(f, n - 1);
    if id.Some? {
      assert n == 3 && f[1] == Field("id", id.value);
      LookupAt(f, 1);
      assert Keys(f) == {f[0].key, f[1].key, f[2].key};
    } else {
      assert n == 2;
      assert Keys(f) == {f[0].key, f[1].key};
    }
  }

  lemma ResultResponseWellFormed(id: Option<Json>, result: Json)
    ensures WellFormedResponse(ResultResponse(id, result))
    ensures Prop(ResultResponse(id, result), "id") == id
    ensures Prop(ResultResponse(id, result), "result") == Some(result)
  {
    ResponseMembers(id, Field("result", result));
  }

  lemma ErrorResponseWellFormed(id: Option<Json>, code: int, message: string)
    ensures var r := ErrorResponse(id, JNum(code), message);
      && WellFormedResponse(r)
      && Prop(r, "id") == id
      && Prop(r, "result").None?
      && ErrorCode(r) == Some(JNum(code)) && ErrorMessage(r) == Some(JStr(message))
  {
    var error := [Field("code", JNum(code)), Field("message", JStr(message))];
    ResponseMembers(id, Field("error", JObj(error)));
    LookupAt(error, 0);
    LookupAt(error, 1);
  }

  lemma CaughtCodeIsNumber(e: JsError)
    ensures CaughtCode(e).JNum?
  {
  }

  /** A request naming a method is answered with a well-formed response
      carrying its own `id`. */
  lemma RequestReplyWellFormed(tools: seq<Tool>, msg: Json)
    requires MethodName(msg).Some?
    ensures WellFormedResponse(RequestReply(tools, msg))
    ensures Prop(RequestReply(tools, msg), "id") == Prop(msg, "id")
  {
    var id := Prop(msg, "id");
    var requested := MethodName(msg).value;
    if requested == "tools/call" {
      match CallTool(tools, OrElse(Prop(msg, "params"), JObj([]))).outcome
      case Normal(result) =>
        ResultResponseWellFormed(id, result);
      case Throw(e) =>
        CaughtCodeIsNumber(e);
        ErrorResponseWellFormed(id, CaughtCode(e).n, CaughtMessage(e));
    } else if requested in {"initialize", "tools/list", "ping", "shutdown"} {
      var result :=
        if requested == "initialize" then InitializeResult
        else if requested == "tools/list" then JObj([Field("tools", JArr(FormatTools(tools)))])
        else if requested == "ping" then JObj([])
        else ShutdownResult;
      assert RequestReply(tools, msg) == ResultResponse(id, result);
      ResultResponseWellFormed(id, result);
    } else {
      ErrorResponseWellFormed(id, -32601, "Unknown method '" + requested + "'");
    }
  }

  /** Every line gets a well-formed JSON-RPC response. */
  lemma ReplyWellFormed(tools: seq<Tool>, line: Line)
    ensures WellFormedResponse(Reply(tools, line))
  {
    match line
    case Malformed =>
      ErrorResponseWellFormed(Some(JNull), -32700, "Parse error");
    case Parsed(msg) =>
      var id := Prop(msg, "id");
      if !PassesEnvelope(msg) {
        ErrorResponseWellFormed(Some(Coalesce(id, JNull)), -32600, "Invalid Request");
      } else if MethodName(msg).None? {
        ErrorResponseWellFormed(Some(Coalesce(id, JNull)), -32600, "Invalid Request: missing method");
      } else {
        RequestReplyWellFormed(tools, msg);
      }
  }

  /** A message that passes the envelope and names a method gets its `id`
      back as it came (no `id` key when it had none); every other line gets
      `id ?? null`, and an unparsable line null. */
  lemma ReplyEchoesId(tools: seq<Tool>, line: Line)
    ensures var reply := Reply(tools, line);
      match line
      case Malformed => Prop(reply, "id") == Some(JNull)
      case Parsed(msg) =>
        if PassesEnvelope(msg) && MethodName(msg).Some? then Prop(reply, "id") == Prop(msg, "id")
        else Prop(reply, "id") == Some(Coalesce(Prop(msg, "id"), JNull))
  {
    match line
    case Malformed =>
      ErrorResponseWellFormed(Some(JNull), -32700, "Parse error");
    case Parsed(msg) =>
      var id := Prop(msg, "id");
      if !PassesEnvelope(msg) {
        ErrorResponseWellFormed(Some(Coalesce(id, JNull)), -32600, "Invalid Request");
      } else if MethodName(msg).None? {
        ErrorResponseWellFormed(Some(Coalesce(id, JNull)), -32600, "Invalid Request: missing method");
      } else {
        RequestReplyWellFormed(tools, msg);
      }
  }

  /** An unparsable line gets the parse error -32700 with a null id and
      does not stop the server. */
  lemma MalformedLineReply(tools: seq<Tool>)
    ensures var reply := Reply(tools, Malformed);
      && Prop(reply, "id") == Some(JNull)
      && ErrorCode(reply) == Some(JNum(-32700)) && ErrorMessage(reply) == Some(JStr("Parse error"))
      && !Stops(Malformed)
  {
    ErrorResponseWellFormed(Some(JNull), -32700, "Parse error");
  }

  /** A parsed message failing the envelope gets -32600 "Invalid Request"
      and does not stop the server. */
  lemma InvalidEnvelopeReply(tools: seq<Tool>, msg: Json)
    requires !PassesEnvelope(msg)
    ensures var reply := Reply(tools, Parsed(msg));
      && Prop(reply, "id") == Some(Coalesce(Prop(msg, "id"), JNull))
      && ErrorCode(reply) == Some(JNum(-32600)) && ErrorMessage(reply) == Some(JStr("Invalid Request"))
      && !Stops(Parsed(msg))
  {
    ErrorResponseWellFormed(Some(Coalesce(Prop(msg, "id"), JNull)), -32600, "Invalid Request");
  }

  /** A request whose method is missing, falsy or not a string (it passed
      the envelope through its id) gets -32600. */
  lemma MissingMethodReply(tools: seq<Tool>, others: seq<Tool>, msg: Json)
    requires PassesEnvelope(msg) && MethodName(msg).None?
    ensures Reply(tools, Parsed(msg)) == Reply(others, Parsed(msg))
    ensures var reply := Reply(tools, Parsed(msg));
      && Prop(reply, "id") == Some(Coalesce(Prop(msg, "id"), JNull))
      && ErrorCode(reply) == Some(JNum(-32600))
      && ErrorMessage(reply) == Some(JStr("Invalid Request: missing method"))
      && !Stops(Parsed(msg))
  {
    ErrorResponseWellFormed(Some(Coalesce(Prop(msg, "id"), JNull)), -32600, "Invalid Request: missing method");
  }

  /** A method outside the five known ones gets -32601 with the method
      name quoted verbatim. */
  lemma UnknownMethodReply(tools: seq<Tool>, msg: Json, requested: string)
    requires PassesEnvelope(msg) && MethodName(msg) == Some(requested)
    requires requested !in {"initialize", "tools/list", "tools/call", "ping", "shutdown"}
    ensures var reply := Reply(tools, Parsed(msg));
      && ErrorCode(reply) == Some(JNum(-32601))
      && ErrorMessage(reply) == Some(JStr("Unknown method '" + requested + "'"))
      && IsInfix(requested, ErrorMessage(reply).value.s)
      && !Stops(Parsed(msg))
  {
    var message := "Unknown method '" + requested + "'";
    ErrorResponseWellFormed(Prop(msg, "id"), -32601, message);
    assert message[16..16 + |requested|] == requested;
    assert InfixAt(requested, message, 16);
  }

  /** `initialize` and `ping` answer with constants, whatever the tools,
      and leave the server running. */
  lemma ConstantReplies(tools: seq<Tool>, others: seq<Tool>, msg: Json)
    requires PassesEnvelope(msg) && MethodName(msg) in {Some("initialize"), Some("ping")}
    ensures Reply(tools, Parsed(msg)) == Reply(others, Parsed(msg))
    ensures var reply := Reply(tools, Parsed(msg));
      && Prop(reply, "result") == Some(if MethodName(msg) == Some("ping") then JObj([]) else InitializeResult)
      && !Stops(Parsed(msg))
  {
    var result := if MethodName(msg) == Some("ping") then JObj([]) else InitializeResult;
    ResultResponseWellFormed(Prop(msg, "id"), result);
  }

  /** `shutdown` is acknowledged with `{ ok: true }`, and only it stops the
      server. */
  lemma ShutdownReply(tools: seq<Tool>, line: Line)
    ensures Stops(line) <==> line.Parsed? && PassesEnvelope(line.msg) && MethodName(line.msg) == Some("shutdown")
    ensures Stops(line) ==> Prop(Reply(tools, line), "result") == Some(ShutdownResult)
  {
    if Stops(line) {
      ResultResponseWellFormed(Prop(line.msg, "id"), ShutdownResult);
    }
  }

  /** `tools/list` lists every registered tool once, in order, with its
      name, description and input schema, or the empty object schema when
      it has none. */
  lemma ToolsListReply(tools: seq<Tool>, msg: Json)
    requires PassesEnvelope(msg) && MethodName(msg) == Some("tools/list")
    ensures var result := Prop(Reply(tools, Parsed(msg)), "result");
      && result.Some? && Keys(result.value.fields) == {"tools"}
      && var entries := Lookup(result.value.fields, "tools").value;
      && entries.JArr? && |entries.elems| == |tools|
      && forall i :: 0 <= i < |tools| ==> ToolEntryListed(entries.elems[i], tools[i])
  {
    var result := JObj([Field("tools", JArr(FormatTools(tools)))]);
    ResultResponseWellFormed(Prop(msg, "id"), result);
    LookupAt(result.fields, 0);
    assert Keys(result.fields) == {result.fields[0].key};
    forall i | 0 <= i < |tools|
      ensures ToolEntryListed(FormatTools(tools)[i], tools[i])
    {
      ToolEntryMembers(tools[i]);
    }
  }

  /** The entry `formatTools` lists for tool `t`. */
  predicate ToolEntryListed(entry: Json, t: Tool)
  {
    && entry.JObj? && Keys(entry.fields) == {"name", "description", "inputSchema"}
    && Lookup(entry.fields, "name") == Some(JStr(t.name))
    && Lookup(entry.fields, "description") == Some(JStr(t.description))
    && Lookup(entry.fields, "inputSchema") == Some(if Truthy(t.inputSchema) then t.inputSchema.value else DefaultInputSchema)
  }

  lemma ToolEntryMembers(t: Tool)
    ensures ToolEntryListed(ToolEntry(t), t)
  {
    var f := ToolEntry(t).fields;
    assert Keys(f) == {f[0].key, f[1].key, f[2].key};
    LookupAt(f, 0);
    LookupAt(f, 1);
    LookupAt(f, 2);
  }

  /** `tools/call` answers with the handler's value, or with the error the
      call ended in: its numeric code or -32000, and its message or its
      string form. A name that cannot be made a property key therefore
      gets -32000, any other unknown tool -32601. */
  lemma ToolCallReply(tools: seq<Tool>, msg: Json)
    requires PassesEnvelope(msg) && MethodName(msg) == Some("tools/call")
    ensures var call := CallTool(tools, OrElse(Prop(msg, "params"), JObj([])));
      var reply := Reply(tools, Parsed(msg));
      && Prop(reply, "id") == Prop(msg, "id")
      && !Stops(Parsed(msg))
      && (call.outcome.Normal? ==> Prop(reply, "result") == Some(call.outcome.value))
      && (call.outcome.Throw? ==>
            && Prop(reply, "result").None?
            && ErrorCode(reply) == Some(CaughtCode(call.outcome.error))
            && ErrorMessage(reply) == Some(JStr(CaughtMessage(call.outcome.error))))
      && (var name := Prop(OrElse(Prop(msg, "params"), JObj([])), "name");
          && (Truthy(name) && Unconvertible(name) ==>
                ErrorCode(reply) == Some(JNum(-32000))
                && ErrorMessage(reply) == Some(JStr("Cannot convert object to primitive value")))
          && (call.invoked.None? && !(Truthy(name) && Unconvertible(name)) ==> ErrorCode(reply) == Some(JNum(-32601))))
  {
    var id := Prop(msg, "id");
    var call := CallTool(tools, OrElse(Prop(msg, "params"), JObj([])));
    match call.outcome
    case Normal(result) =>
      assert Reply(tools, Parsed(msg)) == ResultResponse(id, result);
      ResultResponseWellFormed(id, result);
    case Throw(e) =>
      CaughtCodeIsNumber(e);
      assert Reply(tools, Parsed(msg)) == ErrorResponse(id, JNum(CaughtCode(e).n), CaughtMessage(e));
      ErrorResponseWellFormed(id, CaughtCode(e).n, CaughtMessage(e));
      if call.invoked.None? {
        CallToolDispatch(tools, OrElse(Prop(msg, "params"), JObj([])));
      }
  }

  // ---- properties of whole sessions ----

  lemma StopsWithinCons(lines: seq<Line>)
    requires lines != []
    ensures StopsWithin(lines) == (Stops(lines[0]) || StopsWithin(lines[1..]))
  {
    if StopsWithin(lines[1..]) {
      var i :| 0 <= i < |lines[1..]| && Stops(lines[1..][i]);
      assert Stops(lines[i + 1]);
    }
    if StopsWithin(lines) && !Stops(lines[0]) {
      var i :| 0 <= i < |lines| && Stops(lines[i]);
      assert Stops(lines[1..][i - 1]);
    }
  }

  lemma {:induction false} TranscriptSnoc(tools: seq<Tool>, lines: seq<Line>, line: Line)
    ensures Transcript(tools, lines + [line])
      == Transcript(tools, lines) + (if StopsWithin(lines) then [] else [Reply(tools, line)])
    ensures StopsWithin(lines + [line]) == (StopsWithin(lines) || Stops(line))
  {
    var all := lines + [line];
    StopsWithinCons(all);
    if lines == [] {
      assert all == [line];
      assert !StopsWithin(lines);
    } else {
      assert all[0] == lines[0] && all[1..] == lines[1..] + [line];
      TranscriptSnoc(tools, lines[1..], line);
      StopsWithinCons(lines);
    }
  }

  /** The k-th reply of a session answers its k-th line. */
  lemma {:induction false} TranscriptAnswers(tools: seq<Tool>, lines: seq<Line>)
    ensures var t := Transcript(tools, lines);
      && |t| <= |lines|
      && forall k :: 0 <= k < |t| ==> t[k] == Reply(tools, lines[k])
  {
    if lines != [] && !Stops(lines[0]) {
      TranscriptAnswers(tools, lines[1..]);
      var t := Transcript(tools, lines);
      var rest := Transcript(tools, lines[1..]);
      assert t == [Reply(tools, lines[0])] + rest;
      forall k | 1 <= k < |t| ensures t[k] == Reply(tools, lines[k]) {
        assert t[k] == rest[k - 1] && lines[k] == lines[1..][k - 1];
      }
    }
  }

  /** Replies go on until the first shutdown, which is answered and is the
      last line answered, or until the input ends. */
  lemma {:induction false} TranscriptStops(tools: seq<Tool>, lines: seq<Line>)
    ensures var n := |Transcript(tools, lines)|;
      && n <= |lines|
      && (forall k :: 0 <= k < n - 1 ==> !Stops(lines[k]))
      && (n < |lines| ==> n > 0 && Stops(lines[n - 1]))
  {
    if lines != [] && !Stops(lines[0]) {
      TranscriptStops(tools, lines[1..]);
      var n := |Transcript(tools, lines)|;
      assert n == 1 + |Transcript(tools, lines[1..])|;
      forall k | 1 <= k < n - 1 ensures !Stops(lines[k]) {
        assert lines[k] == lines[1..][k - 1];
      }
      if n < |lines| {
        assert lines[n - 1] == lines[1..][n - 2];
      }
    }
  }

  /** A session's output: the k-th reply answers the k-th line; replies
      go on until the first shutdown, which is answered and is the last
      line answered, or until the input ends. */
  lemma TranscriptShape(tools: seq<Tool>, lines: seq<Line>)
    ensures var t := Transcript(tools, lines);
      && |t| <= |lines|
      && (forall k :: 0 <= k < |t| ==> t[k] == Reply(tools, lines[k]))
      && (forall k :: 0 <= k < |t| - 1 ==> !Stops(lines[k]))
      && (|t| < |lines| ==> |t| > 0 && Stops(lines[|t| - 1]))
  {
    TranscriptAnswers(tools, lines);
    TranscriptStops(tools, lines);
  }

  /** After a shutdown nothing more is written. */
  lemma {:induction false} NothingAfterShutdown(tools: seq<Tool>, lines: seq<Line>, k: nat)
    requires k < |lines| && Stops(lines[k])
    ensures |Transcript(tools, lines)| <= k + 1
  {
    TranscriptShape(tools, lines);
  }

  /** Without a shutdown every line is answered exactly once. */
  lemma {:induction false} EveryLineAnswered(tools: seq<Tool>, lines: seq<Line>)
    requires forall k :: 0 <= k < |lines| ==> !Stops(lines[k])
    ensures |Transcript(tools, lines)| == |lines|
  {
    TranscriptShape(tools, lines);
  }

  // ---- the server ----

  /** `createStdioServer({ tools })`: the startup event and the replies
      written so far, and whether `shutdown` has ended the process. */
  class StdioServer {
    const tools: seq<Tool>
    const pid: int
    var output: seq<Json>
    var terminated: bool
    /** The lines read so far. */
    ghost var received: seq<Line>

    /** The output is the startup event followed by the transcript of the
        lines read, and the server has ended exactly when one of them was
        a shutdown. */
    ghost predicate Valid()
      reads this
    {
      && output == [StartupEvent(pid)] + Transcript(tools, received)
      && terminated == StopsWithin(received)
    }

    constructor (tools: seq<Tool>, pid: int)
      ensures this.tools == tools && this.pid == pid
      ensures output == [StartupEvent(pid)] && !terminated && received == []
      ensures Valid()
    {
      this.tools := tools;
      this.pid := pid;
      output := [StartupEvent(pid)];
      terminated := false;
      received := [];
    }

    /** `write(obj)`: one JSON line on standard output. */
    method Write(obj: Json)
      modifies this
      ensures output == old(output) + [obj]
      ensures terminated == old(terminated) && received == old(received)
    {
      output := output + [obj];
    }

    /** `handleRequest(msg)`. */
    method HandleRequest(msg: Json)
      modifies this
      ensures output == old(output) + [RequestReply(tools, msg)]
      ensures terminated == (old(terminated) || IsShutdown(msg))
      ensures received == old(received)
    {
      var id := Prop(msg, "id");
      var requested := Prop(msg, "method");
      if !Truthy(requested) || !requested.value.JStr? {
        Write(ErrorResponse(Some(Coalesce(id, JNull)), JNum(-32600), "Invalid Request: missing method"));
        return;
      }
      var name := requested.value.s;
      if name == "initialize" {
        Write(ResultResponse(id, InitializeResult));
      } else if name == "tools/list" {
        Write(ResultResponse(id, JObj([Field("tools", JArr(FormatTools(tools)))])));
      } else if name == "tools/call" {
        var call := CallTool(tools, OrElse(Prop(msg, "params"), JObj([])));
        match call.outcome {
          case Normal(result) =>
            Write(ResultResponse(id, result));
          case Throw(e) =>
            var code := if e.code.Some? && e.code.value.JNum? then e.code.value else JNum(-32000);
            var message := if e.message != "" then e.message else ErrorToString(e);
            Write(ErrorResponse(id, code, message));
        }
      } else if name == "ping" {
        Write(ResultResponse(id, JObj([])));
      } else if name == "shutdown" {
        Write(ResultResponse(id, ShutdownResult));
        terminated := true;
      } else {
        Write(ErrorResponse(id, JNum(-32601), "Unknown method '" + name + "'"));
      }
    }

    /** The `line` listener. Once the server has shut down no line is
        handled any more. */
    method HandleLine(line: Line)
      requires Valid()
      modifies this
      ensures Valid() && received == old(received) + [line]
      ensures old(terminated) ==> output == old(output) && terminated
      ensures !old(terminated) ==> output == old(output) + [Reply(tools, line)] && terminated == Stops(line)
    {
      TranscriptSnoc(tools, received, line);
      if !terminated {
        match line {
          case Malformed =>
            Write(ErrorResponse(Some(JNull), JNum(-32700), "Parse error"));
          case Parsed(msg) =>
            var jsonrpc := Prop(msg, "jsonrpc");
            var hasMethod := Truthy(Prop(msg, "method"));
            if Truthy(Some(msg)) && jsonrpc == Some(JStr("2.0")) && (hasMethod || Prop(msg, "id").Some?) {
              HandleRequest(msg);
            } else {
              Write(ErrorResponse(Some(Coalesce(Prop(msg, "id"), JNull)), JNum(-32600), "Invalid Request"));
            }
        }
      }
      received := received + [line];
    }

    /** The read loop over the lines of standard input. */
    method Serve(lines: seq<Line>)
      requires Valid()
      modifies this
      ensures Valid() && received == old(received) + lines
      ensures old(terminated) ==> output == old(output)
    {
      var i := 0;
      while i < |lines|
        invariant 0 <= i <= |lines|
        invariant Valid() && received == old(received) + lines[..i]
        invariant old(terminated) ==> output == old(output) && terminated
      {
        HandleLine(lines[i]);
        assert lines[..i + 1] == lines[..i] + [lines[i]];
        i := i + 1;
      }
      assert lines[..|lines|] == lines;
    }
  }
}
