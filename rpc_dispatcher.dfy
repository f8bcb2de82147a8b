/**
 * The request handlers of the stdio JSON-RPC 2.0 server: each maps one
 * parsed message to the ordered list of messages the server writes with
 * `send`, and says whether the process then exits.  Error replies carry
 * the codes of section 5.1 of the JSON-RPC 2.0 specification (-32601
 * "Method not found", -32602 "Invalid params"); messages without an `id`
 * (notifications, section 4.1 of the JSON-RPC 2.0 specification) get no reply.
 */
module RpcDispatcher {
  import opened Wrappers
  import opened Text
  import opened Json
  import opened JsValues

  // ---------------------------------------------------------------------
  // Output shaping: send, sendResponse, sendError, log

  /** A message handed to `send`. */
  datatype Outgoing =
    | ResultReply(id: Json, result: Json)
    | ErrorReply(id: Json, code: int, message: string, data: Option<Json>)
    | Notification(methodName: string, params: Json)

  const MethodNotFound := -32601
  const InvalidParams := -32602

  /** The error object of `sendError`: `data` is present only when it is defined. */
  function ErrorObject(code: int, message: string, data: Option<Json>): Json {
    JObj([("code", JNum(code)), ("message", JStr(message))]
         + (if data.Some? then [("data", data.value)] else []))
  }

  /** The object `send` serialises. */
  function ToJson(o: Outgoing): Json {
    match o
    case ResultReply(id, result) => JObj([("jsonrpc", JStr("2.0")), ("id", id), ("result", result)])
    case ErrorReply(id, code, message, data) =>
      JObj([("jsonrpc", JStr("2.0")), ("id", id), ("error", ErrorObject(code, message, data))])
    case Notification(m, params) => JObj([("jsonrpc", JStr("2.0")), ("method", JStr(m)), ("params", params)])
  }

  /** `log(message, level)`: a `notifications/logMessage` notification. */
  function Log(message: string, level: string): Outgoing {
    Notification("notifications/logMessage", JObj([("level", JStr(level)), ("message", JStr(message))]))
  }

  /** Every message carries `jsonrpc: "2.0"`; an error has `data` exactly when one was given. */
  lemma ToJsonShape(o: Outgoing)
    ensures Prop(ToJson(o), "jsonrpc") == Some(JStr("2.0"))
    ensures o.ErrorReply? ==>
      && Prop(ToJson(o), "id") == Some(o.id)
      && Prop(ToJson(o), "error") == Some(ErrorObject(o.code, o.message, o.data))
      && (Prop(ErrorObject(o.code, o.message, o.data), "data").Some? <==> o.data.Some?)
      && (o.data.Some? ==> Prop(ErrorObject(o.code, o.message, o.data), "data") == o.data)
  {
    var fs := ToJson(o).fields;
    LookupLast(fs, 0, "jsonrpc");
    if o.ErrorReply? {
      LookupLast(fs, 1, "id");
      LookupLast(fs, 2, "error");
      var efs := ErrorObject(o.code, o.message, o.data).fields;
      if o.data.Some? {
        LookupLast(efs, 2, "data");
      } else {
        LookupAbsent(efs, "data");
      }
    }
  }

  // ---------------------------------------------------------------------
  // Constant data

  datatype Resource = Resource(uri: string, name: string, description: string, mimeType: string, content: string)

  const ServiceAContent :=
    "# Service A\n\nThis is a mock service description used to verify MCP connectivity.\n\n"
    + "- Language: TypeScript\n- Purpose: Handles user authentication\n"
    + "- Important modules: `auth/controller.ts`, `auth/service.ts`\n"
  const ServiceBContent :=
    "# Service B\n\nAnother mock service.\n\n"
    + "- Language: Go\n- Purpose: Serves internal APIs\n"
    + "- Deployment: Helm chart located at `deploy/helm/service-b`\n"
  const PlatformInfraContent :=
    "# Platform Infrastructure\n\nContains Terraform and Helm charts for the wider platform.\n\n"
    + "- Terraform root modules in `terraform/`\n"
    + "- Helm charts for shared components in `charts/`\n"
    + "- CI pipeline definitions in `.gitlab-ci.yml`\n"

  const ServiceADescription := "High level overview of the Service A code base used for integration tests."
  const ServiceBDescription := "Containerized service B overview used for MCP dummy server testing."
  const PlatformInfraDescription := "Summary of infrastructure as code repository."

  const ServiceA := Resource("dummy://repo/service-a", "Service A overview", ServiceADescription, "text/markdown",
    ServiceAContent)
  const ServiceB := Resource("dummy://repo/service-b", "Service B overview", ServiceBDescription, "text/markdown",
    ServiceBContent)
  const PlatformInfra := Resource("dummy://repo/platform-infra", "Platform infrastructure", PlatformInfraDescription,
    "text/markdown", PlatformInfraContent)

  const Resources: seq<Resource> := [ServiceA, ServiceB, PlatformInfra]

  function Capabilities(): Json {
    JObj([
      ("tools", JObj([("listChanged", JBool(true))])),
      ("resources", JObj([("listChanged", JBool(true)), ("get", JBool(true))])),
      ("logging", JObj([("listChanged", JBool(false))]))
    ])
  }

  function ServerInfo(): Json {
    JObj([("name", JStr("vscode-mcp-rag-dummy")), ("version", JStr("0.1.0"))])
  }

  const FetchDescription := "Return curated documentation snippets for a repository in the organization."
  const RepositoryParamDescription := "Identifier of the repository (e.g. service-a)."
  const TopicParamDescription := "Optional topic to narrow the requested context (module, feature, etc)."

  function FetchToolDescriptor(): Json {
    JObj([
      ("name", JStr("fetchRepositoryContext")),
      ("description", JStr(FetchDescription)),
      ("inputSchema", JObj([
        ("type", JStr("object")),
        ("properties", JObj([
          ("repository", JObj([("type", JStr("string")), ("description", JStr(RepositoryParamDescription))])),
          ("topic", JObj([("type", JStr("string")), ("description", JStr(TopicParamDescription))]))
        ])),
        ("required", JArr([JStr("repository")]))
      ]))
    ])
  }

  // ---------------------------------------------------------------------
  // Resource lookups (`RESOURCES.find`)

  /** Index of the first resource whose URI ends with `suffix`. */
  function FindEndingWith(rs: seq<Resource>, suffix: string): (r: Option<nat>)
    ensures r.Some? ==> r.value < |rs| && EndsWith(rs[r.value].uri, suffix)
    ensures r.Some? ==> forall j :: 0 <= j < r.value ==> !EndsWith(rs[j].uri, suffix)
    ensures r.None? ==> forall j :: 0 <= j < |rs| ==> !EndsWith(rs[j].uri, suffix)
    decreases |rs|
  {
    if |rs| == 0 then None
    else if EndsWith(rs[0].uri, suffix) then Some(0)
    else match FindEndingWith(rs[1..], suffix)
      case None => None
      case Some(i) => Some(i + 1)
  }

  /** Index of the first resource whose URI is strictly equal to `uri`. */
  function FindByUri(rs: seq<Resource>, uri: Option<Json>): (r: Option<nat>)
    ensures r.Some? ==> r.value < |rs| && uri == Some(JStr(rs[r.value].uri))
    ensures r.None? ==> forall j :: 0 <= j < |rs| ==> uri != Some(JStr(rs[j].uri))
    decreases |rs|
  {
    if |rs| == 0 then None
    else if uri == Some(JStr(rs[0].uri)) then Some(0)
    else match FindByUri(rs[1..], uri)
      case None => None
      case Some(i) => Some(i + 1)
  }

  /** The last `/`-separated segment (`uri.split("/").pop()`). */
  function LastSegment(s: string): string
    decreases |s|
  {
    if |s| == 0 then ""
    else if s[|s| - 1] == '/' then ""
    else LastSegment(s[..|s| - 1]) + [s[|s| - 1]]
  }

  lemma {:induction false} LastSegmentAfterSlash(prefix: string, name: string)
    requires forall k :: 0 <= k < |name| ==> name[k] != '/'
    ensures LastSegment(prefix + "/" + name) == name
    decreases |name|
  {
    var s := prefix + "/" + name;
    if |name| == 0 {
      assert s[|s| - 1] == '/';
    } else {
      var init := name[..|name| - 1];
      assert s[..|s| - 1] == prefix + "/" + init;
      LastSegmentAfterSlash(prefix, init);
      assert init + [name[|name| - 1]] == name;
    }
  }

  function ResourceNames(rs: seq<Resource>): seq<string> {
    seq(|rs|, i requires 0 <= i < |rs| => LastSegment(rs[i].uri))
  }

  // ---------------------------------------------------------------------
  // Handlers

  /**
   * `out[k]` answers `id`, and everything else in `out` is a notification:
   * the request gets exactly one response (section 5 of JSON-RPC 2.0).
   */
  predicate SoleReply(out: seq<Outgoing>, k: int, id: Json) {
    && 0 <= k < |out|
    && !out[k].Notification? && out[k].id == id
    && forall j :: 0 <= j < |out| && j != k ==> out[j].Notification?
  }

  ghost predicate AnsweredOnce(out: seq<Outgoing>, id: Json) {
    exists k :: SoleReply(out, k, id)
  }

  /**
   * The effect of handling one message: what is sent and whether
   * `process.exit` follows, or the text of the `TypeError` thrown before
   * anything was sent.
   */
  datatype Outcome =
    | Done(out: seq<Outgoing>, exit: bool)
    | Threw(error: string)

  /** The text `${error}` gives for the `TypeError` of reading property `reading` of `null`. */
  function NullRead(reading: string): string {
    "TypeError: Cannot read properties of null (reading '" + reading + "')"
  }

  /** `message.params || {}`. */
  function ParamsOf(message: Json): Json {
    var p := Prop(message, "params");
    if Truthy(p) then p.value else JObj([])
  }

  function HandleInitialize(id: Json): (out: seq<Outgoing>)
    ensures SoleReply(out, 0, id)
  {
    [
      ResultReply(id, JObj([("protocolVersion", JStr("0.1.0")), ("capabilities", Capabilities()), ("serverInfo", ServerInfo())])),
      Notification("notifications/ready", JObj([])),
      Log("Dummy MCP server is ready.", "info")
    ]
  }

  function HandleToolsList(id: Json): (out: seq<Outgoing>)
    ensures SoleReply(out, 1, id)
  {
    [Log("tools/list called.", "info"), ResultReply(id, JObj([("tools", JArr([FetchToolDescriptor()]))]))]
  }

  /** `String(args.topic)` when the topic is truthy, `null` otherwise. */
  function TopicOf(args: Json): Option<string>
    requires !ConversionThrows(Prop(args, "topic"))
  {
    var t := Prop(args, "topic");
    if Truthy(t) then Some(ToJsString(t.value)) else None
  }

  /** The `topic ? ... : ...` test on that value. */
  predicate HasTopic(topic: Option<string>) {
    topic.Some? && topic.value != ""
  }

  /** The lower-cased repository identifier, `String(args.repository || "").toLowerCase()`. */
  function RepoIdOf(args: Json): string
    requires !ConversionThrows(Prop(args, "repository"))
  {
    var r := Prop(args, "repository");
    ToLower(if Truthy(r) then ToJsString(r.value) else "")
  }

  /** Neither `String(args.repository || "")` nor `String(args.topic)` throws. */
  predicate ArgumentsConvert(args: Json) {
    !ConversionThrows(Prop(args, "repository")) && !ConversionThrows(Prop(args, "topic"))
  }

  /** `args` of `const { name, arguments: args = {} } = message.params || {}`. */
  function ArgsOf(message: Json): Json {
    Prop(ParamsOf(message), "arguments").GetOr(JObj([]))
  }

  /** The text `fetchRepositoryContext` answers with. */
  function RepositoryContext(args: Json): string
    requires ArgumentsConvert(args)
  {
    var topic := TopicOf(args);
    match FindEndingWith(Resources, RepoIdOf(args))
    case Some(i) =>
      Resources[i].content
      + (if HasTopic(topic) then "\n## Requested topic\n\nThe caller asked about: " + topic.value + ".\n" else "")
    case None => UnknownRepositoryText(Prop(args, "repository"))
  }

  /**
   * The names of the resources, joined with ", ", as the no-match text
   * lists them; `RepositoryListJoined` proves that this is what joining
   * the last URI segments of `Resources` gives.
   */
  const AvailableRepositories := "service-a" + ", " + "service-b" + ", " + "platform-infra"

  /** The answer when no resource matches the `repository` argument. */
  function UnknownRepositoryText(repository: Option<Json>): string
    requires !ConversionThrows(repository)
  {
    "No repository named \"" + Template(repository)
    + "\" is registered in the dummy index. Available repositories: "
    + AvailableRepositories + "."
  }

  function HandleToolsCall(id: Json, message: Json): (o: Outcome)
    ensures o.Done? ==> !o.exit && SoleReply(o.out, |o.out| - 1, id)
    ensures o.Threw? ==> o.error == ToPrimitiveError || o.error == NullRead("repository")
  {
    var name := Prop(ParamsOf(message), "name");
    var args := ArgsOf(message);
    if name != Some(JStr("fetchRepositoryContext")) then
      if ConversionThrows(name) then Threw(ToPrimitiveError)
      else Done([ErrorReply(id, MethodNotFound, "Unknown tool: " + Template(name), None)], false)
    else if args == JNull then
      Threw(NullRead("repository"))
    else if !ArgumentsConvert(args) then
      Threw(ToPrimitiveError)
    else
      Done(FetchContext(id, args), false)
  }

  /** What `fetchRepositoryContext` sends once its arguments are read: the log line, then the answer. */
  function FetchContext(id: Json, args: Json): (out: seq<Outgoing>)
    requires ArgumentsConvert(args)
    ensures SoleReply(out, 1, id) && out[1].ResultReply?
  {
    var topic := TopicOf(args);
    var logLine := "fetchRepositoryContext 调用: repository=" + TemplateOrEmpty(Prop(args, "repository"))
                   + (if HasTopic(topic) then ", topic=" + topic.value else "");
    [
      Log(logLine, "info"),
      ResultReply(id, JObj([("content", JArr([JObj([("type", JStr("text")), ("text", JStr(RepositoryContext(args)))])]))]))
    ]
  }

  /** The listing of a resource: everything but its content. */
  function ResourceSummary(r: Resource): Json {
    JObj([("uri", JStr(r.uri)), ("name", JStr(r.name)), ("description", JStr(r.description)), ("mimeType", JStr(r.mimeType))])
  }

  function ResourceListing(rs: seq<Resource>): seq<Json> {
    seq(|rs|, i requires 0 <= i < |rs| => ResourceSummary(rs[i]))
  }

  function HandleResourcesList(id: Json): (out: seq<Outgoing>)
    ensures SoleReply(out, 1, id)
  {
    [
      Log("resources/list called.", "info"),
      ResultReply(id, JObj([("resources", JArr(ResourceListing(Resources))), ("nextCursor", JNull)]))
    ]
  }

  /** The answer to `resources/get` for a resource: its uri, mimeType and content. */
  function ResourceReply(id: Json, r: Resource): Outgoing {
    ResultReply(id, JObj([("contents", JArr([
      JObj([("uri", JStr(r.uri)), ("mimeType", JStr(r.mimeType)), ("text", JStr(r.content))])
    ]))]))
  }

  function HandleResourceGet(id: Json, message: Json): (o: Outcome)
    ensures o.Done? ==> !o.exit && SoleReply(o.out, 1, id)
    ensures o.Threw? ==> o.error == ToPrimitiveError
  {
    var uri := Prop(ParamsOf(message), "uri");
    if ConversionThrows(uri) then Threw(ToPrimitiveError)
    else
      var logged := Log("resources/get call: uri=" + TemplateOrEmpty(uri), "info");
      match FindByUri(Resources, uri)
      case None => Done([logged, ErrorReply(id, InvalidParams, "Unknown resource: " + Template(uri), None)], false)
      case Some(i) => Done([logged, ResourceReply(id, Resources[i])], false)
  }

  function HandlePing(id: Json): (out: seq<Outgoing>)
    ensures SoleReply(out, 0, id)
  {
    [ResultReply(id, JObj([("pong", JBool(true))]))]
  }

  /** `shutdown` answers `null` and then exits the process. */
  function HandleShutdown(id: Json): (o: Outcome)
    ensures o.Done? && o.exit && SoleReply(o.out, 0, id)
  {
    Done([ResultReply(id, JNull)], true)
  }

  /** The method names `handleRequest` switches on (strict equality). */
  datatype RpcMethod =
    | Initialize | ToolsList | ToolsCall | ResourcesList | ResourcesGet | Ping | Shutdown | Cancel
    | Unhandled(value: Json)

  function MethodName(m: RpcMethod): string
    requires !m.Unhandled?
  {
    match m
    case Initialize => "initialize"
    case ToolsList => "tools/list"
    case ToolsCall => "tools/call"
    case ResourcesList => "resources/list"
    case ResourcesGet => "resources/get"
    case Ping => "server/ping"
    case Shutdown => "shutdown"
    case Cancel => "notifications/cancel"
  }

  /** The `case` of the switch that `message.method` selects. */
  function ClassifyMethod(v: Json): (m: RpcMethod)
    ensures !m.Unhandled? ==> v == JStr(MethodName(m))
    ensures m.Unhandled? ==> m.value == v
    ensures m.Unhandled? ==> forall k: RpcMethod :: !k.Unhandled? ==> v != JStr(MethodName(k))
  {
    if v == JStr("initialize") then Initialize
    else if v == JStr("tools/list") then ToolsList
    else if v == JStr("tools/call") then ToolsCall
    else if v == JStr("resources/list") then ResourcesList
    else if v == JStr("resources/get") then ResourcesGet
    else if v == JStr("server/ping") then Ping
    else if v == JStr("shutdown") then Shutdown
    else if v == JStr("notifications/cancel") then Cancel
    else Unhandled(v)
  }

  /** `handleRequest`, given the case its switch selects. */
  function HandleRequest(id: Json, message: Json, kind: RpcMethod): (o: Outcome)
    ensures o.Done? && kind != Cancel ==> AnsweredOnce(o.out, id)
    ensures kind == Cancel ==> o == Done([], false)
    ensures o.Done? && o.exit ==> kind == Shutdown
    ensures o.Threw? ==> kind == ToolsCall || kind == ResourcesGet || kind.Unhandled?
    ensures o.Threw? ==> o.error == ToPrimitiveError || o.error == NullRead("repository")
    ensures kind.Unhandled? ==> (o.Threw? <==> ToPrimitiveThrows(kind.value))
  {
    match kind
    case Initialize => Done(HandleInitialize(id), false)
    case ToolsList => Done(HandleToolsList(id), false)
    case ToolsCall => HandleToolsCall(id, message)
    case ResourcesList => Done(HandleResourcesList(id), false)
    case ResourcesGet => HandleResourceGet(id, message)
    case Ping => Done(HandlePing(id), false)
    case Shutdown => HandleShutdown(id)
    case Cancel => Done([], false)
    case Unhandled(v) => HandleUnhandled(id, v)
  }

  /** The `default` case: -32601 "Unhandled method: ${message.method}". */
  function HandleUnhandled(id: Json, v: Json): (o: Outcome)
    ensures o.Threw? <==> ToPrimitiveThrows(v)
    ensures o.Threw? ==> o.error == ToPrimitiveError
    ensures o.Done? ==> !o.exit && SoleReply(o.out, 0, id)
  {
    if ToPrimitiveThrows(v) then Threw(ToPrimitiveError)
    else
      var out := [ErrorReply(id, MethodNotFound, "Unhandled method: " + ToJsString(v), None)];
      assert SoleReply(out, 0, id);
      Done(out, false)
  }

  /** A message is a request to be answered when it has an `id` and a truthy `method`. */
  predicate IsRequest(message: Json) {
    Prop(message, "id").Some? && Truthy(Prop(message, "method"))
  }

  /** `handleMessage`. */
  function HandleMessage(message: Json): (o: Outcome)
    ensures message != JNull && !IsRequest(message) ==> o == Done([], false)
    ensures o.Done? && IsRequest(message) && Prop(message, "method") != Some(JStr("notifications/cancel"))
      ==> AnsweredOnce(o.out, Prop(message, "id").value)
    ensures o.Done? && o.exit ==> Prop(message, "method") == Some(JStr("shutdown"))
  {
    if message == JNull then Threw(NullRead("id"))
    else if !IsRequest(message) then Done([], false)
    else HandleRequest(Prop(message, "id").value, message, ClassifyMethod(Prop(message, "method").value))
  }

  // ---------------------------------------------------------------------
  // Properties

  /**
   * A handler throws exactly when `message` is `null`, when
   * `fetchRepositoryContext` reads its `null` arguments, or when a value
   * inserted into a text cannot be converted: the tool name of an unknown
   * tool, the `repository` or `topic` argument, the `uri` of
   * `resources/get`, or an unhandled method.
   */
  lemma ThrowsExactly(message: Json)
    ensures HandleMessage(message) == Threw(NullRead("id")) <==> message == JNull
    ensures HandleMessage(message) == Threw(NullRead("repository")) <==>
      && IsRequest(message)
      && Prop(message, "method") == Some(JStr("tools/call"))
      && Prop(ParamsOf(message), "name") == Some(JStr("fetchRepositoryContext"))
      && ArgsOf(message) == JNull
    ensures HandleMessage(message) == Threw(ToPrimitiveError) <==>
      && IsRequest(message)
      && (|| (Prop(message, "method") == Some(JStr("tools/call")) && ToolCallConversionThrows(message))
          || (Prop(message, "method") == Some(JStr("resources/get")) && ConversionThrows(Prop(ParamsOf(message), "uri")))
          || (ClassifyMethod(Prop(message, "method").value).Unhandled? && ToPrimitiveThrows(Prop(message, "method").value)))
    ensures HandleMessage(message).Threw? ==>
      HandleMessage(message).error in {NullRead("id"), NullRead("repository"), ToPrimitiveError}
  {
    ErrorTextsDistinct();
    if message != JNull && IsRequest(message) {
      var m := Prop(message, "method").value;
      var kind := ClassifyMethod(m);
      RequestThrowsNullRead(Prop(message, "id").value, message, kind);
      RequestThrowsConversion(Prop(message, "id").value, message, kind);
      assert kind == ToolsCall <==> m == JStr("tools/call");
      assert kind == ResourcesGet <==> m == JStr("resources/get");
    }
  }

  /** `resources/get` throws exactly when its URI cannot be inserted into the log line. */
  lemma ResourceGetThrows(id: Json, message: Json)
    ensures HandleResourceGet(id, message).Threw? <==> ConversionThrows(Prop(ParamsOf(message), "uri"))
  {
  }

  /** Which case of the switch can throw on a `null` read: `tools/call` alone. */
  lemma RequestThrowsNullRead(id: Json, message: Json, kind: RpcMethod)
    ensures HandleRequest(id, message, kind) != Threw(NullRead("id"))
    ensures HandleRequest(id, message, kind) == Threw(NullRead("repository")) <==>
      && kind == ToolsCall
      && Prop(ParamsOf(message), "name") == Some(JStr("fetchRepositoryContext"))
      && ArgsOf(message) == JNull
  {
    ErrorTextsDistinct();
    if kind == ToolsCall {
      ToolsCallThrows(id, message);
    }
  }

  /** Which cases of the switch fail on a conversion: `tools/call`, `resources/get` and the default. */
  lemma RequestThrowsConversion(id: Json, message: Json, kind: RpcMethod)
    ensures HandleRequest(id, message, kind) == Threw(ToPrimitiveError) <==>
      || (kind == ToolsCall && ToolCallConversionThrows(message))
      || (kind == ResourcesGet && ConversionThrows(Prop(ParamsOf(message), "uri")))
      || (kind.Unhandled? && ToPrimitiveThrows(kind.value))
  {
    ErrorTextsDistinct();
    match kind
    case ToolsCall => ToolsCallThrows(id, message);
    case ResourcesGet => ResourceGetThrows(id, message);
    case _ =>
  }

  /**
   * The conversion `tools/call` fails on: the name of an unknown tool, or
   * the `repository` or `topic` of a `fetchRepositoryContext` call whose
   * arguments are not `null`.
   */
  predicate ToolCallConversionThrows(message: Json) {
    if Prop(ParamsOf(message), "name") == Some(JStr("fetchRepositoryContext"))
    then ArgsOf(message) != JNull && !ArgumentsConvert(ArgsOf(message))
    else ConversionThrows(Prop(ParamsOf(message), "name"))
  }

  /** `tools/call` throws on `null` arguments of `fetchRepositoryContext`, or on a failed conversion. */
  lemma ToolsCallThrows(id: Json, message: Json)
    ensures HandleToolsCall(id, message) == Threw(NullRead("repository")) <==>
      Prop(ParamsOf(message), "name") == Some(JStr("fetchRepositoryContext")) && ArgsOf(message) == JNull
    ensures HandleToolsCall(id, message) == Threw(ToPrimitiveError) <==> ToolCallConversionThrows(message)
    ensures HandleToolsCall(id, message).Threw? ==>
      HandleToolsCall(id, message) == Threw(NullRead("repository")) || HandleToolsCall(id, message) == Threw(ToPrimitiveError)
  {
    ErrorTextsDistinct();
  }

  /** The three texts a handler can throw with differ. */
  lemma ErrorTextsDistinct()
    ensures NullRead("id") != NullRead("repository")
    ensures ToPrimitiveError != NullRead("id") && ToPrimitiveError != NullRead("repository")
  {
    assert NullRead("id")[52] != NullRead("repository")[52];
    assert ToPrimitiveError[18] != NullRead("id")[18];
    assert ToPrimitiveError[18] != NullRead("repository")[18];
  }

  /**
   * The input `{"jsonrpc": "2.0", "id": 1, "method": {"toString": 0}}`:
   * inserting the method into the error text throws, so no reply is sent.
   */
  lemma MethodWithOwnToStringThrows()
    ensures HandleMessage(JObj([("jsonrpc", JStr("2.0")), ("id", JNum(1)), ("method", JObj([("toString", JNum(0))]))]))
         == Threw(ToPrimitiveError)
  {
    var m := JObj([("toString", JNum(0))]);
    var message := JObj([("jsonrpc", JStr("2.0")), ("id", JNum(1)), ("method", m)]);
    LookupLast(message.fields, 1, "id");
    LookupLast(message.fields, 2, "method");
    LookupLast(m.fields, 0, "toString");
    assert ClassifyMethod(m) == Unhandled(m);
    UnknownMethod(message);
  }

  /** An unknown tool gets -32601 with the text "Unknown tool: <name>", unless that text cannot be built. */
  lemma UnknownTool(id: Json, message: Json)
    requires Prop(ParamsOf(message), "name") != Some(JStr("fetchRepositoryContext"))
    ensures var name := Prop(ParamsOf(message), "name");
      && (!ConversionThrows(name) ==>
            HandleToolsCall(id, message) == Done([ErrorReply(id, -32601, "Unknown tool: " + Template(name), None)], false))
      && (ConversionThrows(name) ==> HandleToolsCall(id, message) == Threw(ToPrimitiveError))
  {
  }

  /**
   * An unknown method gets -32601 with the text "Unhandled method: <method>",
   * unless that text cannot be built.
   */
  lemma UnknownMethod(message: Json)
    requires IsRequest(message)
    requires ClassifyMethod(Prop(message, "method").value).Unhandled?
    ensures var m := Prop(message, "method").value;
      && (!ToPrimitiveThrows(m) ==>
            HandleMessage(message) == Done([ErrorReply(Prop(message, "id").value, -32601, "Unhandled method: " + ToJsString(m), None)], false))
      && (ToPrimitiveThrows(m) ==> HandleMessage(message) == Threw(ToPrimitiveError))
    ensures Prop(message, "method").value.JStr? ==>
      "Unhandled method: " + ToJsString(Prop(message, "method").value) == "Unhandled method: " + Prop(message, "method").value.s
  {
  }

  lemma CancelIsSilent(message: Json)
    requires IsRequest(message) && Prop(message, "method") == Some(JStr("notifications/cancel"))
    ensures HandleMessage(message) == Done([], false)
  {
    assert ClassifyMethod(Prop(message, "method").value) == Cancel;
  }

  /**
   * `fetchRepositoryContext` answers with the first resource whose URI ends
   * with the lower-cased repository argument.
   */
  lemma ContextPicksFirstSuffixMatch(args: Json, i: nat)
    requires ArgumentsConvert(args)
    requires i < |Resources| && EndsWith(Resources[i].uri, RepoIdOf(args))
    requires forall j :: 0 <= j < i ==> !EndsWith(Resources[j].uri, RepoIdOf(args))
    ensures StartsWith(RepositoryContext(args), Resources[i].content)
    ensures RepositoryContext(args) == Resources[i].content
      + (if HasTopic(TopicOf(args)) then "\n## Requested topic\n\nThe caller asked about: " + TopicOf(args).value + ".\n" else "")
  {
    var s := RepositoryContext(args);
    assert s[..|Resources[i].content|] == Resources[i].content;
  }

  /** An empty or missing repository matches every URI, so `service-a` is chosen. */
  lemma EmptyRepositoryIsServiceA(args: Json)
    requires !Truthy(Prop(args, "repository")) && !ConversionThrows(Prop(args, "topic"))
    ensures StartsWith(RepositoryContext(args), Resources[0].content)
  {
    assert RepoIdOf(args) == "";
    assert EndsWith(Resources[0].uri, "");
    ContextPicksFirstSuffixMatch(args, 0);
  }

  /** Resources filed under a common prefix are listed by the names after it. */
  lemma NamesAfterPrefix(rs: seq<Resource>, prefix: string, names: seq<string>)
    requires |rs| == |names|
    requires forall i :: 0 <= i < |rs| ==> rs[i].uri == prefix + "/" + names[i]
    requires forall i, k :: 0 <= i < |names| && 0 <= k < |names[i]| ==> names[i][k] != '/'
    ensures ResourceNames(rs) == names
  {
    forall i | 0 <= i < |rs| ensures ResourceNames(rs)[i] == names[i] {
      LastSegmentAfterSlash(prefix, names[i]);
    }
  }

  /** The names listed when no repository matches. */
  lemma ResourceNamesListed()
    ensures ResourceNames(Resources) == ["service-a", "service-b", "platform-infra"]
  {
    var names := ["service-a", "service-b", "platform-infra"];
    assert Resources[0].uri == "dummy://repo" + "/" + names[0];
    assert Resources[1].uri == "dummy://repo" + "/" + names[1];
    assert Resources[2].uri == "dummy://repo" + "/" + names[2];
    NamesAfterPrefix(Resources, "dummy://repo", names);
  }

  lemma JoinThree(a: string, b: string, c: string, sep: string)
    ensures Join([a, b, c], sep) == a + sep + b + sep + c
  {
    assert [a, b, c][1..] == [b, c];
    assert [b, c][1..] == [c];
    assert Join([c], sep) == c;
    assert Join([b, c], sep) == b + sep + c;
  }

  /** The names joined as the no-match text lists them. */
  lemma RepositoryListJoined()
    ensures Join(ResourceNames(Resources), ", ") == AvailableRepositories
  {
    ResourceNamesListed();
    JoinThree("service-a", "service-b", "platform-infra", ", ");
  }

  /** When no URI matches, the text names the repository asked for and lists the three known ones. */
  lemma NoMatchListsRepositories(args: Json)
    requires ArgumentsConvert(args)
    requires forall j :: 0 <= j < |Resources| ==> !EndsWith(Resources[j].uri, RepoIdOf(args))
    ensures RepositoryContext(args) == UnknownRepositoryText(Prop(args, "repository"))
    ensures UnknownRepositoryText(Prop(args, "repository")) == "No repository named \"" + Template(Prop(args, "repository"))
      + "\" is registered in the dummy index. Available repositories: "
      + Join(ResourceNames(Resources), ", ") + "."
  {
    assert FindEndingWith(Resources, RepoIdOf(args)).None?;
    RepositoryListJoined();
  }

  /**
   * `resources/get` throws when the URI cannot be inserted into the log
   * line; otherwise it answers a URI that equals a resource's exactly, and
   * -32602 otherwise.
   */
  lemma ResourceGetExact(id: Json, message: Json)
    ensures var o := HandleResourceGet(id, message);
      var uri := Prop(ParamsOf(message), "uri");
      && (o.Threw? <==> ConversionThrows(uri))
      && (o.Threw? ==> o.error == ToPrimitiveError)
      && (o.Done? ==>
        && |o.out| == 2 && !o.exit
        && o.out[0] == Log("resources/get call: uri=" + TemplateOrEmpty(uri), "info")
        && (o.out[1].ErrorReply? <==> forall j :: 0 <= j < |Resources| ==> uri != Some(JStr(Resources[j].uri)))
        && (o.out[1].ErrorReply? ==> o.out[1] == ErrorReply(id, -32602, "Unknown resource: " + Template(uri), None))
        && (o.out[1].ResultReply? ==> exists j :: 0 <= j < |Resources| && uri == Some(JStr(Resources[j].uri)))
        && (forall j :: 0 <= j < |Resources| && uri == Some(JStr(Resources[j].uri)) ==> o.out[1] == ResourceReply(id, Resources[j])))
  {
    ResourceUrisDistinct();
  }

  /** No two resources share a URI, so a URI names at most one. */
  lemma ResourceUrisDistinct()
    ensures forall p, q :: 0 <= p < q < |Resources| ==> Resources[p].uri != Resources[q].uri
  {
    assert |Resources[0].uri| == 22 && |Resources[1].uri| == 22 && |Resources[2].uri| == 27;
    assert Resources[0].uri[21] == 'a' && Resources[1].uri[21] == 'b';
  }

  /** `resources/list` lists every resource, in order, with everything but its content. */
  lemma ResourceListingOmitsContent(rs: seq<Resource>)
    ensures |ResourceListing(rs)| == |rs|
    ensures forall i :: 0 <= i < |rs| ==>
      && Prop(ResourceListing(rs)[i], "content").None?
      && Prop(ResourceListing(rs)[i], "uri") == Some(JStr(rs[i].uri))
      && Prop(ResourceListing(rs)[i], "name") == Some(JStr(rs[i].name))
      && Prop(ResourceListing(rs)[i], "description") == Some(JStr(rs[i].description))
      && Prop(ResourceListing(rs)[i], "mimeType") == Some(JStr(rs[i].mimeType))
  {
    forall i | 0 <= i < |rs|
      ensures Prop(ResourceListing(rs)[i], "content").None?
      ensures Prop(ResourceListing(rs)[i], "uri") == Some(JStr(rs[i].uri))
      ensures Prop(ResourceListing(rs)[i], "name") == Some(JStr(rs[i].name))
      ensures Prop(ResourceListing(rs)[i], "description") == Some(JStr(rs[i].description))
      ensures Prop(ResourceListing(rs)[i], "mimeType") == Some(JStr(rs[i].mimeType))
    {
      var fs := ResourceListing(rs)[i].fields;
      LookupLast(fs, 0, "uri");
      LookupLast(fs, 1, "name");
      LookupLast(fs, 2, "description");
      LookupLast(fs, 3, "mimeType");
      LookupAbsent(fs, "content");
    }
  }

  /** The `resources/list` reply carries the listing of every resource and a `null` `nextCursor`. */
  lemma ResourcesListReply(id: Json)
    ensures var out := HandleResourcesList(id);
      && out[1].ResultReply?
      && Prop(out[1].result, "resources") == Some(JArr(ResourceListing(Resources)))
      && Prop(out[1].result, "nextCursor") == Some(JNull)
  {
    var fs := HandleResourcesList(id)[1].result.fields;
    LookupLast(fs, 0, "resources");
    LookupLast(fs, 1, "nextCursor");
  }
}
