/**
 * The HTTP test server's single endpoint, `mcp_handler`: a pure function
 * from a validated request to a response and an HTTP status.  Errors are
 * ordinary responses (status 404 for an unknown tool, 400 for an unknown
 * method); the one exception the handler can raise is modelled as `Raise`.
 */
module HttpDispatcher {
  import opened Wrappers
  import opened Text
  import opened Json

  /** `McpRequest`, as pydantic hands it over. */
  datatype Request = Request(id: Option<string>, methodName: string, params: Option<seq<(string, Json)>>)

  datatype ErrorBody = ErrorBody(code: string, message: string)

  /** `McpResponse`. */
  datatype Response = Response(id: Option<string>, result: seq<(string, Json)>, error: Option<ErrorBody>)

  /** What the handler does: reply with a status, or raise an exception. */
  datatype Outcome = Reply(response: Response, status: int) | Raise(exception: string)

  /** The methods the handler recognises; every other name is `Unknown`. */
  datatype Method = ListTools | CallTool | GetServerInfo | Unknown(name: string)

  const ToolName := "dummy_rag_query"

  function MethodName(m: Method): string {
    match m
    case ListTools => "list_tools"
    case CallTool => "call_tool"
    case GetServerInfo => "get_server_info"
    case Unknown(name) => name
  }

  /** Exact, case-sensitive classification of the `method` field. */
  function ParseMethod(s: string): (m: Method)
    ensures MethodName(m) == s
    ensures m.Unknown? <==> s != "list_tools" && s != "call_tool" && s != "get_server_info"
  {
    if s == "list_tools" then ListTools
    else if s == "call_tool" then CallTool
    else if s == "get_server_info" then GetServerInfo
    else Unknown(s)
  }

  // ---------------------------------------------------------------------
  // Python value semantics

  /** Python truthiness of a decoded JSON value. */
  predicate PyTruthy(v: Json) {
    match v
    case JNull => false
    case JBool(b) => b
    case JNum(n) => n != 0
    case JStr(s) => s != ""
    case JArr(xs) => xs != []
    case JObj(fs) => fs != []
  }

  /** No earlier member of `fs` has the key of member `p`. */
  predicate FirstKey(fs: seq<(string, Json)>, p: nat)
    requires p < |fs|
  {
    forall j :: 0 <= j < p ==> fs[j].0 != fs[p].0
  }

  /** The positions, from `p` on, where a key occurs for the first time, in order. */
  function FirstKeys(fs: seq<(string, Json)>, p: nat): (r: seq<nat>)
    requires p <= |fs|
    ensures forall k :: 0 <= k < |r| ==> p <= r[k] < |fs| && FirstKey(fs, r[k])
    ensures forall k1, k2 :: 0 <= k1 < k2 < |r| ==> r[k1] < r[k2]
    ensures forall q :: p <= q < |fs| && FirstKey(fs, q) ==> q in r
    decreases |fs| - p
  {
    if p == |fs| then []
    else
      var rest := FirstKeys(fs, p + 1);
      if FirstKey(fs, p) then [p] + rest else rest
  }

  /** The last member at or before `j` with the key of member `i`, when none after `j` has it. */
  function LastBinding(fs: seq<(string, Json)>, i: nat, j: nat): (r: nat)
    requires i <= j < |fs|
    requires forall k :: j < k < |fs| ==> fs[k].0 != fs[i].0
    ensures i <= r <= j && fs[r].0 == fs[i].0
    ensures forall k :: r < k < |fs| ==> fs[k].0 != fs[i].0
    decreases j - i
  {
    if fs[j].0 == fs[i].0 then j else LastBinding(fs, i, j - 1)
  }

  /**
   * The members of the dictionary Python's JSON decoder builds from an
   * object: one per key, in the order the keys first occur, each holding
   * the key's last value.
   */
  function DictBindings(fs: seq<(string, Json)>): (r: seq<nat>)
    ensures forall k :: 0 <= k < |r| ==> r[k] < |fs|
  {
    var ps := FirstKeys(fs, 0);
    seq(|ps|, k requires 0 <= k < |ps| => LastBinding(fs, ps[k], |fs| - 1))
  }

  /**
   * `repr(v)`.  Strings are quoted with single quotes and not escaped, which
   * is Python's rendering for strings without quotes or backslashes; an
   * object is the dictionary the decoder built from it.
   */
  function PyRepr(v: Json): string {
    match v
    case JNull => "None"
    case JBool(b) => if b then "True" else "False"
    case JNum(n) => IntToDecimal(n)
    case JStr(s) => "'" + s + "'"
    case JArr(xs) =>
      "[" + Join(seq(|xs|, i requires 0 <= i < |xs| => PyRepr(xs[i])), ", ") + "]"
    case JObj(fs) =>
      var bs := DictBindings(fs);
      "{" + Join(seq(|bs|, i requires 0 <= i < |bs| => "'" + fs[bs[i]].0 + "': " + PyRepr(fs[bs[i]].1)), ", ") + "}"
  }

  /** The position where the key of member `j` first occurs. */
  function FirstIndex(fs: seq<(string, Json)>, j: nat): (q: nat)
    requires j < |fs|
    ensures q <= j && fs[q].0 == fs[j].0 && FirstKey(fs, q)
  {
    FirstFrom(fs, j, 0)
  }

  /** The first position at or after `i` with the key of member `j`. */
  function FirstFrom(fs: seq<(string, Json)>, j: nat, i: nat): (q: nat)
    requires i <= j < |fs|
    requires forall k :: 0 <= k < i ==> fs[k].0 != fs[j].0
    ensures i <= q <= j && fs[q].0 == fs[j].0 && FirstKey(fs, q)
    decreases j - i
  {
    if fs[i].0 == fs[j].0 then i else FirstFrom(fs, j, i + 1)
  }

  /** Each dictionary entry holds the value `Lookup` finds for its key. */
  lemma DictValuesDecoded(fs: seq<(string, Json)>)
    ensures var bs := DictBindings(fs);
      forall k :: 0 <= k < |bs| ==> Lookup(fs, fs[bs[k]].0) == Some(fs[bs[k]].1)
  {
    var bs := DictBindings(fs);
    forall k | 0 <= k < |bs| ensures Lookup(fs, fs[bs[k]].0) == Some(fs[bs[k]].1) {
      LookupLast(fs, bs[k], fs[bs[k]].0);
    }
  }

  /** The entries follow the order in which their keys first occur, so no key is repeated. */
  lemma DictKeysInFirstOrder(fs: seq<(string, Json)>)
    ensures var bs := DictBindings(fs);
      && (forall k1, k2 :: 0 <= k1 < k2 < |bs| ==> FirstIndex(fs, bs[k1]) < FirstIndex(fs, bs[k2]))
      && (forall k1, k2 :: 0 <= k1 < k2 < |bs| ==> fs[bs[k1]].0 != fs[bs[k2]].0)
  {
    var bs := DictBindings(fs);
    var ps := FirstKeys(fs, 0);
    forall k | 0 <= k < |bs| ensures FirstIndex(fs, bs[k]) == ps[k] {
      FirstIndexUnique(fs, ps[k], bs[k]);
    }
    forall k1, k2 | 0 <= k1 < k2 < |bs| ensures fs[bs[k1]].0 != fs[bs[k2]].0 {
      SameKeySameFirst(fs, bs[k1], bs[k2]);
    }
  }

  /** Some dictionary entry carries `key`. */
  predicate HasEntry(fs: seq<(string, Json)>, key: string) {
    var bs := DictBindings(fs);
    exists k :: 0 <= k < |bs| && fs[bs[k]].0 == key
  }

  /** Every key of the object has an entry. */
  lemma DictKeysCovered(fs: seq<(string, Json)>)
    ensures forall j :: 0 <= j < |fs| ==> HasEntry(fs, fs[j].0)
  {
    var bs := DictBindings(fs);
    var ps := FirstKeys(fs, 0);
    forall j | 0 <= j < |fs| ensures HasEntry(fs, fs[j].0) {
      var q := FirstIndex(fs, j);
      assert q in ps;
      var k :| 0 <= k < |ps| && ps[k] == q;
      assert bs[k] == LastBinding(fs, q, |fs| - 1);
      assert 0 <= k < |bs| && fs[bs[k]].0 == fs[j].0;
    }
  }

  /** Members with the same key have the same first index. */
  lemma SameKeySameFirst(fs: seq<(string, Json)>, a: nat, b: nat)
    requires a < |fs| && b < |fs|
    ensures fs[a].0 == fs[b].0 ==> FirstIndex(fs, a) == FirstIndex(fs, b)
  {
    var q := FirstIndex(fs, a);
    var r := FirstIndex(fs, b);
    assert fs[a].0 == fs[b].0 ==> !(q < r) && !(r < q);
  }

  /** A position where a key first occurs is the first index of every member with that key. */
  lemma FirstIndexUnique(fs: seq<(string, Json)>, p: nat, j: nat)
    requires p < |fs| && j < |fs| && FirstKey(fs, p) && fs[j].0 == fs[p].0
    ensures FirstIndex(fs, j) == p
  {
    var q := FirstIndex(fs, j);
    assert !(q < p) && !(p < q);
  }

  /** Python's decoder keeps one entry for a repeated key: the last value, at the first key's place. */
  lemma RepeatedKeyPrintedOnce()
    ensures PyRepr(JObj([("a", JNum(1)), ("a", JNum(2))])) == "{'a': 2}"
  {
    var fs := [("a", JNum(1)), ("a", JNum(2))];
    assert fs[0].0 == fs[1].0;
    assert !FirstKey(fs, 1);
    assert FirstKeys(fs, 1) == [];
    assert FirstKeys(fs, 0) == [0];
    assert DictBindings(fs) == [1];
    assert IntToDecimal(2) == "2";
  }

  /** `str(v)`, which `%s` and f-strings insert; an absent value is `None`. */
  function PyStr(v: Option<Json>): string {
    match v
    case None => "None"
    case Some(JStr(s)) => s
    case Some(x) => PyRepr(x)
  }

  function PyTypeName(v: Json): string {
    match v
    case JNull => "NoneType"
    case JBool(_) => "bool"
    case JNum(_) => "int"
    case JStr(_) => "str"
    case JArr(_) => "list"
    case JObj(_) => "dict"
  }

  // ---------------------------------------------------------------------
  // Constant payloads

  function ToolDescriptor(): Json {
    JObj([
      ("name", JStr(ToolName)),
      ("description", JStr("Return dummy knowledge base snippets for connectivity testing.")),
      ("input_schema", JObj([
        ("type", JStr("object")),
        ("properties", JObj([
          ("query", JObj([("type", JStr("string")), ("description", JStr("User question to search the KB"))]))
        ])),
        ("required", JArr([JStr("query")]))
      ]))
    ])
  }

  function ServerInfo(): seq<(string, Json)> {
    [
      ("name", JStr("python-mcp-http-test")),
      ("version", JStr("0.1.0")),
      ("protocol", JStr("mcp/0.1")),
      ("capabilities", JObj([("tools", JBool(true))]))
    ]
  }

  function SnippetA(query: string): string {
    "This is a dummy snippet for '" + query + "'."
  }

  function SnippetB(query: string): string {
    "Another placeholder snippet for '" + query + "'."
  }

  /** The two knowledge-base entries synthesised for a query. */
  function KbEntries(query: string): seq<Json> {
    [
      JObj([("title", JStr("MCP RAG KB Entry A")), ("snippet", JStr(SnippetA(query))), ("source", JStr("kb://dummy/a"))]),
      JObj([("title", JStr("MCP RAG KB Entry B")), ("snippet", JStr(SnippetB(query))), ("source", JStr("kb://dummy/b"))])
    ]
  }

  /** The result of `dummy_rag_query`: a text summary and the entries. */
  function DummyResult(query: string): seq<(string, Json)> {
    var results := KbEntries(query);
    [
      ("content", JArr([JObj([("type", JStr("text")), ("text", JStr("Found " + NatToDecimal(|results|) + " dummy results"))])])),
      ("data", JObj([("results", JArr(results))]))
    ]
  }

  // ---------------------------------------------------------------------
  // The handler

  /** `arguments = params.get("arguments") or {}`. */
  function ArgumentsOf(params: seq<(string, Json)>): Json {
    var a := Lookup(params, "arguments");
    if a.Some? && PyTruthy(a.value) then a.value else JObj([])
  }

  /** The `call_tool` branch. */
  function HandleCallTool(id: Option<string>, params: seq<(string, Json)>): Outcome {
    var toolName := Lookup(params, "name");
    var arguments := ArgumentsOf(params);
    if toolName == Some(JStr(ToolName)) then
      if !arguments.JObj? then
        Raise("AttributeError: '" + PyTypeName(arguments) + "' object has no attribute 'get'")
      else
        var query := match Lookup(arguments.fields, "query") { case None => "" case Some(q) => PyStr(Some(q)) };
        Reply(Response(id, DummyResult(query), None), 200)
    else
      Reply(Response(id, [], Some(ErrorBody("tool_not_found", "Unknown tool: " + PyStr(toolName)))), 404)
  }

  /** `mcp_handler`. */
  function Handle(req: Request): (o: Outcome)
    ensures o.Reply? ==> o.response.id == req.id
    ensures o.Reply? ==> o.status in {200, 400, 404}
    ensures o.Reply? ==> (o.status == 200 <==> o.response.error.None?)
    ensures o.Reply? && o.response.error.Some? ==> o.response.result == []
  {
    var params := req.params.GetOr([]);
    match ParseMethod(req.methodName)
    case ListTools => Reply(Response(req.id, [("tools", JArr([ToolDescriptor()]))], None), 200)
    case CallTool => HandleCallTool(req.id, params)
    case GetServerInfo => Reply(Response(req.id, ServerInfo(), None), 200)
    case Unknown(m) =>
      Reply(Response(req.id, [], Some(ErrorBody("method_not_found", "Unknown method: " + m))), 400)
  }

  // ---------------------------------------------------------------------
  // Properties

  /** `list_tools` returns exactly the one tool, whose schema requires `query`. */
  lemma ListToolsReply(id: Option<string>, params: Option<seq<(string, Json)>>)
    ensures var o := Handle(Request(id, "list_tools", params));
      && o == Reply(Response(id, [("tools", JArr([ToolDescriptor()]))], None), 200)
      && Prop(ToolDescriptor(), "name") == Some(JStr("dummy_rag_query"))
      && Prop(ToolDescriptor(), "input_schema").Some?
      && Prop(Prop(ToolDescriptor(), "input_schema").value, "required") == Some(JArr([JStr("query")]))
  {
  }

  /**
   * `call_tool` on `dummy_rag_query` with a string query: status 200 and the
   * result synthesised for that query.
   */
  lemma DummyQueryReply(id: Option<string>, params: seq<(string, Json)>, args: seq<(string, Json)>, q: string)
    requires Lookup(params, "name") == Some(JStr(ToolName))
    requires Lookup(params, "arguments") == Some(JObj(args))
    requires Lookup(args, "query") == Some(JStr(q))
    ensures Handle(Request(id, "call_tool", Some(params))) == Reply(Response(id, DummyResult(q), None), 200)
  {
    assert ArgumentsOf(params) == JObj(args);
  }

  /** The result reads "Found 2 dummy results" and carries the entries for the query. */
  lemma DummyResultShape(q: string)
    ensures Lookup(DummyResult(q), "content")
         == Some(JArr([JObj([("type", JStr("text")), ("text", JStr("Found 2 dummy results"))])]))
    ensures Lookup(DummyResult(q), "data") == Some(JObj([("results", JArr(KbEntries(q)))]))
  {
    assert NatToDecimal(|KbEntries(q)|) == "2";
    assert "Found " + "2" + " dummy results" == "Found 2 dummy results";
    LookupLast(DummyResult(q), 0, "content");
    LookupLast(DummyResult(q), 1, "data");
  }

  /** Exactly two entries, each of whose snippets quotes the query verbatim between single quotes. */
  lemma KbEntriesQuoteQuery(q: string)
    ensures |KbEntries(q)| == 2
    ensures forall i :: 0 <= i < |KbEntries(q)| ==>
      var snippet := Prop(KbEntries(q)[i], "snippet");
      snippet.Some? && snippet.value.JStr? && Contains(snippet.value.s, "'" + q + "'")
  {
    ContainsMiddle("This is a dummy snippet for ", "'" + q + "'", ".");
    assert SnippetA(q) == "This is a dummy snippet for " + ("'" + q + "'") + ".";
    ContainsMiddle("Another placeholder snippet for ", "'" + q + "'", ".");
    assert SnippetB(q) == "Another placeholder snippet for " + ("'" + q + "'") + ".";
    var entries := KbEntries(q);
    LookupLast(entries[0].fields, 1, "snippet");
    LookupLast(entries[1].fields, 1, "snippet");
  }

  /**
   * Missing or falsy `arguments`, and a missing `query`, default to the
   * empty query: the snippets quote `''`.
   */
  lemma DefaultQuery(id: Option<string>, params: seq<(string, Json)>)
    requires Lookup(params, "name") == Some(JStr(ToolName))
    requires var a := Lookup(params, "arguments");
      a.None? || !PyTruthy(a.value) || (a.value.JObj? && Lookup(a.value.fields, "query").None?)
    ensures Handle(Request(id, "call_tool", Some(params))) == Reply(Response(id, DummyResult(""), None), 200)
    ensures SnippetA("") == "This is a dummy snippet for ''."
  {
  }

  /** Without `params` there is no tool name, and the error renders it as `None`. */
  lemma MissingParams(id: Option<string>)
    ensures Handle(Request(id, "call_tool", None))
         == Reply(Response(id, [], Some(ErrorBody("tool_not_found", "Unknown tool: None"))), 404)
  {
    assert "Unknown tool: " + PyStr(None) == "Unknown tool: None";
  }

  /** Any other tool name: status 404, empty result, `tool_not_found`. */
  lemma UnknownTool(id: Option<string>, params: seq<(string, Json)>)
    requires Lookup(params, "name") != Some(JStr(ToolName))
    ensures Handle(Request(id, "call_tool", Some(params)))
         == Reply(Response(id, [], Some(ErrorBody("tool_not_found", "Unknown tool: " + PyStr(Lookup(params, "name"))))), 404)
  {
  }

  /** `get_server_info` returns the fixed identity. */
  lemma ServerInfoReply(id: Option<string>, params: Option<seq<(string, Json)>>)
    ensures var o := Handle(Request(id, "get_server_info", params));
      && o.Reply? && o.status == 200 && o.response.error.None?
      && Lookup(o.response.result, "name") == Some(JStr("python-mcp-http-test"))
      && Lookup(o.response.result, "version") == Some(JStr("0.1.0"))
      && Lookup(o.response.result, "protocol") == Some(JStr("mcp/0.1"))
      && Lookup(o.response.result, "capabilities") == Some(JObj([("tools", JBool(true))]))
  {
  }

  /** Any method outside the three: status 400, empty result, `method_not_found`. */
  lemma UnknownMethod(req: Request)
    requires req.methodName != "list_tools" && req.methodName != "call_tool" && req.methodName != "get_server_info"
    ensures Handle(req)
         == Reply(Response(req.id, [], Some(ErrorBody("method_not_found", "Unknown method: " + req.methodName))), 400)
  {
  }

  /**
   * The handler raises exactly when `dummy_rag_query` is called with
   * truthy `arguments` that are not a dictionary (`.get` does not exist).
   */
  lemma RaisesExactly(req: Request)
    ensures Handle(req).Raise? <==>
      && req.methodName == "call_tool"
      && Lookup(req.params.GetOr([]), "name") == Some(JStr(ToolName))
      && var a := Lookup(req.params.GetOr([]), "arguments");
         a.Some? && PyTruthy(a.value) && !a.value.JObj?
  {
  }
}
