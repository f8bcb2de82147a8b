# A verified model of the MCP dummy servers

The repository holds three small servers that speak the Model Context
Protocol for connectivity tests:

- **An HTTP test server in Python** (`server/mcp_server.py`). Its one handler, `mcp_handler`, maps a request `(id, method, params)` to a response and a status code. It knows `list_tools`, `call_tool` (one tool, `dummy_rag_query`) and `get_server_info`.
- **A stdio JSON-RPC 2.0 server in Node.js** (`src/server.js`).
  - Its input arrives in chunks on stdin. Messages are framed as `Content-Length: <n>\r\n\r\n<n bytes>`, in the manner of the Header Part of the Language Server Protocol base protocol.
  - `processBuffer` cuts frames off a growing byte buffer in a loop.
  - `handleMessage` and `handleRequest` dispatch each message. Its handlers send ordered JSON-RPC messages: replies, errors with codes -32601 and -32602 from section 5.1 of the JSON-RPC 2.0 specification, and log notifications. Shutdown ends the process.
- **A TypeScript code-index tool server** (`src/index.ts`). It has four tools over a fixed, in-memory index: `search_code`, `get_file_content`, `get_repository_info` and `list_repositories`. Arguments are checked against object schemas, and defaults are filled in. Unknown tools and failed checks become error results.

The model is split into these modules:

| file | module | models |
|---|---|---|
| `wrappers.dfy` | `Wrappers` | `Option` and `Result` |
| `text.dfy` | `Text` | string and byte helpers: prefixes, substrings, ASCII lower-casing, decimal numerals, joining, ASCII bytes |
| `json.dfy` | `Json`, `JsValues` | a JSON value whose objects keep their members in order, where the last duplicate key wins; JavaScript truthiness, `String(v)` and template literals, and the conversion `TypeError` on an object with its own `toString` key |
| `mcp_server.dfy` | `HttpDispatcher` | `mcp_handler`, with Python truthiness, `str` and `repr` |
| `rpc_dispatcher.dfy` | `RpcDispatcher` | `send`, `sendResponse`, `sendError`, `log`, and every handler of `src/server.js` |
| `frame_decoder.dfy` | `FrameDecoder` | `processBuffer`: one pass (`NextStep`), all passes (`Drain`), framing (`Frame`/`Send`), and the class `StdioServer` whose methods update the buffer and the output in place |
| `code_index.dfy` | `CodeIndex` | the index, the schemas with their defaults, the four tools, the tool-call switch and the tool list |

Each model follows the source's own form:

- **The Python handler and the TypeScript tools** are pure functions.
- **The handlers of the Node.js server** are functions that return the messages they send. `HandleToolsCall`, `HandleResourceGet`, `HandleUnhandled` and `HandleShutdown` return an `Outcome`. It says whether `process.exit` follows or gives the text of the `TypeError` thrown before anything was sent. The other handlers never exit nor throw and return the messages alone.
- **`processBuffer` and the stdin handlers** become the class `StdioServer`:
  - the fields `buffer`, `output` and `exited`;
  - `ProcessBuffer`, a `while (true)` loop proved against the function `Drain`;
  - `Pass`, one iteration of the loop, proved against `NextStep`.

## Model

| member | source | states |
|---|---|---|
| HttpDispatcher.ParseMethod | server/mcp_server.py:24-27 | the method name is compared exactly; a name other than the three known ones is `Unknown`, and the original name is kept |
| HttpDispatcher.Handle | server/mcp_server.py:22-107 | every reply echoes the request's id, including an absent one; the status is 200, 400 or 404; it is 200 exactly when there is no error; an error reply has an empty result |
| HttpDispatcher.ListToolsReply | server/mcp_server.py:27-43 | `list_tools` returns status 200, no error and exactly one tool, `dummy_rag_query`, whose input schema requires `["query"]` |
| HttpDispatcher.DummyQueryReply | server/mcp_server.py:45-75 | `dummy_rag_query` with a query returns status 200 and the result built for that query |
| HttpDispatcher.DummyResultShape | server/mcp_server.py:62-75 | the content text reads "Found 2 dummy results"; `data.results` holds the entries |
| HttpDispatcher.KbEntriesQuoteQuery | server/mcp_server.py:50-61 | exactly two entries, each snippet quoting the query verbatim between single quotes |
| HttpDispatcher.DefaultQuery | server/mcp_server.py:25-49 | missing or falsy `arguments`, or a missing `query`, give the empty query, so the snippets quote `''` |
| HttpDispatcher.MissingParams | server/mcp_server.py:25-84 | without `params` there is no tool name; the reply is 404 `tool_not_found` "Unknown tool: None" |
| HttpDispatcher.UnknownTool | server/mcp_server.py:77-84 | any other tool name gives 404, an empty result and `tool_not_found` with "Unknown tool: " followed by `str(name)`, where a dictionary name is printed as the decoded dictionary (see `DictValuesDecoded`) |
| HttpDispatcher.FirstKeys | server/mcp_server.py:46 | the positions where a key of a decoded object occurs for the first time, increasing, and all of them |
| HttpDispatcher.LastBinding | server/mcp_server.py:46 | the last member carrying a given key |
| HttpDispatcher.DictValuesDecoded | server/mcp_server.py:81 | each entry `str` prints for a dictionary holds the value `Lookup` finds for its key, the last one given, as the JSON decoder keeps it |
| HttpDispatcher.DictKeysInFirstOrder | server/mcp_server.py:81 | the printed entries follow the order in which their keys first occur, so no key is printed twice |
| HttpDispatcher.DictKeysCovered | server/mcp_server.py:81 | every key of the object is printed |
| HttpDispatcher.RepeatedKeyPrintedOnce | server/mcp_server.py:81 | `{"a": 1, "a": 2}` prints as `{'a': 2}` |
| HttpDispatcher.ServerInfoReply | server/mcp_server.py:87-98 | `get_server_info` gives 200, no error, name `python-mcp-http-test`, version `0.1.0`, protocol `mcp/0.1` and `capabilities.tools = True` |
| HttpDispatcher.UnknownMethod | server/mcp_server.py:100-107 | any other method gives 400, an empty result and `method_not_found` with "Unknown method: <method>" |
| HttpDispatcher.RaisesExactly | server/mcp_server.py:46-49 | the handler raises exactly when `dummy_rag_query` gets truthy `arguments` that are not a dictionary |
| RpcDispatcher.ToJsonShape | src/server.js:45-73 | every message sent carries `jsonrpc: "2.0"`; an error carries its id and its error object, and that object has `data` exactly when data was given, and then that data |
| RpcDispatcher.FindEndingWith | src/server.js:131 | the first resource whose URI ends with the suffix, or none when no URI does |
| RpcDispatcher.FindByUri | src/server.js:169 | a resource whose URI strictly equals the value, or none when no URI does |
| RpcDispatcher.LastSegmentAfterSlash | src/server.js:140 | `uri.split("/").pop()` is the text after the last slash |
| RpcDispatcher.HandleInitialize | src/server.js:75-87 | exactly one reply, to the request's id, first among the messages sent |
| RpcDispatcher.HandleToolsList | src/server.js:89-113 | exactly one reply, to the request's id, after the log |
| RpcDispatcher.HandleToolsCall | src/server.js:115-151 | when nothing throws, exactly one reply or error, to the request's id, comes last and the process goes on; a throw is either the conversion `TypeError` or the read of `repository` on `null` |
| RpcDispatcher.FetchContext | src/server.js:122-150 | once the arguments convert, the log line and then exactly one result reply to the request's id |
| RpcDispatcher.ToolsCallThrows | src/server.js:116-123 | `tools/call` throws on reading `repository` of `null` arguments exactly for `fetchRepositoryContext` with `arguments: null`; it throws the conversion `TypeError` exactly when the unknown tool's name, or the `repository` or `topic` argument, has its own `toString` key |
| RpcDispatcher.HandleResourcesList | src/server.js:153-164 | exactly one reply, to the request's id, after the log |
| RpcDispatcher.HandleResourceGet | src/server.js:166-184 | unless the log line throws, exactly one reply or error, to the request's id, after the log, and no exit; a throw is the conversion `TypeError` |
| RpcDispatcher.ResourceGetThrows | src/server.js:167-168 | `resources/get` throws exactly when its uri cannot be inserted into the log line |
| RpcDispatcher.HandlePing | src/server.js:186-188 | exactly one reply, to the request's id |
| RpcDispatcher.HandleShutdown | src/server.js:190-193 | one reply to the request's id, then the process exits |
| RpcDispatcher.ClassifyMethod | src/server.js:196-221 | the switch selects a named case exactly when the method strictly equals that case's string, and otherwise the default, keeping the value it was given |
| RpcDispatcher.HandleRequest | src/server.js:195-223 | for the case the switch selected: every case but `notifications/cancel` sends exactly one reply to the request's id; cancel sends nothing; only `shutdown` exits; only `tools/call`, `resources/get` and the default case can throw, the default exactly when the method has its own `toString` key |
| RpcDispatcher.HandleUnhandled | src/server.js:220-221 | the default case throws the conversion `TypeError` exactly when the method cannot be converted, and otherwise sends exactly one error to the request's id |
| RpcDispatcher.RequestThrowsNullRead | src/server.js:195-223 | only `tools/call` reads a property of `null`: `repository`, for `fetchRepositoryContext` with `arguments: null` |
| RpcDispatcher.RequestThrowsConversion | src/server.js:195-223 | the switch throws the conversion `TypeError` exactly in `tools/call` when a converted value has its own `toString` key, in `resources/get` when the uri does, and in the default case when the method does |
| RpcDispatcher.HandleMessage | src/server.js:225-236 | a message without an id, or with a falsy method, sends nothing; a request whose handling does not throw is answered once; only `shutdown` exits |
| RpcDispatcher.ThrowsExactly | src/server.js:115-236 | handling throws the error that reads `id` exactly on a `null` message; the one that reads `repository` exactly on a `fetchRepositoryContext` call whose `arguments` are `null`; the conversion `TypeError` exactly when a value inserted into a text has its own `toString` key (an unknown tool's name, `repository`, `topic`, the uri of `resources/get`, an unhandled method); and no other error |
| RpcDispatcher.ErrorTextsDistinct | src/server.js:272-273 | the three texts the handlers can throw, which the catch logs, differ |
| RpcDispatcher.MethodWithOwnToStringThrows | src/server.js:221 | `{"jsonrpc": "2.0", "id": 1, "method": {"toString": 0}}` throws the conversion `TypeError` rather than getting a reply |
| RpcDispatcher.UnknownTool | src/server.js:116-119 | a tool other than `fetchRepositoryContext` gets -32601 "Unknown tool: <name>" when its name converts, and throws the conversion `TypeError` when it has its own `toString` key |
| RpcDispatcher.UnknownMethod | src/server.js:220-221 | an unknown method gets -32601 "Unhandled method: <method>" when it converts, and throws the conversion `TypeError` when it has its own `toString` key |
| RpcDispatcher.CancelIsSilent | src/server.js:218-219 | `notifications/cancel` sends nothing and does not exit |
| RpcDispatcher.ContextPicksFirstSuffixMatch | src/server.js:122-138 | the text is the content of the first resource whose URI ends with the lower-cased repository, followed by the topic section when the topic is truthy |
| RpcDispatcher.EmptyRepositoryIsServiceA | src/server.js:122-131 | an empty or missing repository matches `service-a` |
| RpcDispatcher.NamesAfterPrefix | src/server.js:140 | resources filed under a common prefix are listed by the names after it |
| RpcDispatcher.ResourceNamesListed | src/server.js:21-43 | the names listed are `service-a`, `service-b` and `platform-infra` |
| RpcDispatcher.RepositoryListJoined | src/server.js:140 | joined with ", " they read `service-a, service-b, platform-infra`, the text the no-match answer embeds |
| RpcDispatcher.NoMatchListsRepositories | src/server.js:139-141 | when no URI matches, the text names the repository asked for and lists the last URI segments of all resources, joined with ", " |
| RpcDispatcher.ResourceGetExact | src/server.js:166-184 | `resources/get` throws the conversion `TypeError` exactly when the uri has its own `toString` key; otherwise it logs the uri, then answers -32602 "Unknown resource: <uri>" exactly when no URI equals it; for a resource whose URI equals it, the reply's `contents` hold that resource's uri, mimeType and content as text |
| RpcDispatcher.ResourceUrisDistinct | src/server.js:21-43 | no two resources share a URI, so a URI names at most one resource |
| RpcDispatcher.ResourceListingOmitsContent | src/server.js:156-161 | the listing has every resource in order, with its uri, name, description and mimeType, and without `content` |
| RpcDispatcher.ResourcesListReply | src/server.js:153-164 | the `resources/list` reply carries the listing of all resources and `nextCursor: null` |
| FrameDecoder.FindSeparator | src/server.js:247 | the index of the first `\r\n\r\n`, or none when the buffer has none |
| FrameDecoder.MatchIndex | src/server.js:253 | the leftmost place where a case-blind `Content-Length: ` is followed by a digit |
| FrameDecoder.DigitRun | src/server.js:253 | the digits matched by `(\d+)` |
| FrameDecoder.DigitRunIsMaximal | src/server.js:253 | the greedy digit run is followed by a non-digit or by the end of the header |
| FrameDecoder.DigitRunToEnd | src/server.js:253 | a run of digits up to the end of the header is taken whole |
| FrameDecoder.LengthField | src/server.js:253-254 | the matched length is a non-empty digit string; there is none exactly when no place in the header matches |
| FrameDecoder.NextStep | src/server.js:246-267 | a pass that does not stop leaves a strict suffix of the buffer, so the loop terminates; a delivered body and the rest together are shorter than the buffer |
| FrameDecoder.Dispatch | src/server.js:269-274 | a body that fails to parse only logs "Failed to parse JSON payload: …" and does not exit; only a `shutdown` exits |
| FrameDecoder.DrainWithStops | src/server.js:245-276 | for any consuming step, the loop stops leaving a suffix of its input; unless it exited, the step there asks for more data |
| FrameDecoder.DrainWithAppend | src/server.js:240-276 | for any stable step, decoding `a + b` does what decoding `a` and then its rest followed by `b` does |
| FrameDecoder.StepAfterHeader | src/server.js:253-267 | once the header end is known, a pass that does not stop leaves a strict suffix of the buffer, and a delivered body and the rest together are shorter than the buffer |
| FrameDecoder.StepAfterHeaderStable | src/server.js:253-267 | with the header end and length fixed, appending bytes leaves the outcome unchanged and only lengthens the rest |
| FrameDecoder.NextStepStable | src/server.js:247-267 | once a pass can complete, appending bytes leaves its outcome unchanged and only lengthens the rest |
| FrameDecoder.SeparatorStable | src/server.js:247 | appending bytes does not move a separator already found |
| FrameDecoder.NextStepConsumes | src/server.js:256-267 | every pass that does not stop shortens the buffer |
| FrameDecoder.NextStepKeepsSuffix | src/server.js:256-267 | every pass leaves a suffix of the buffer |
| FrameDecoder.NextStepIsStable | src/server.js:247-267 | a completed pass is unaffected by later bytes |
| FrameDecoder.DrainNeedMore | src/server.js:247-264 | with no separator, or with fewer bytes than the length declares, the buffer is left unchanged and nothing is handled |
| FrameDecoder.DrainExit | src/server.js:266-271 | a frame whose handling exits ends decoding with its outputs |
| FrameDecoder.DrainSkip | src/server.js:253-258 | a header without a length logs an error, drops the header and the 4 separator bytes, and goes on |
| FrameDecoder.DrainDeliver | src/server.js:266-274 | a complete frame is handled first, then decoding goes on with exactly the remaining suffix |
| FrameDecoder.DrainStops | src/server.js:245-276 | the loop ends with a suffix of the buffer that, unless the process exited, holds no complete frame |
| FrameDecoder.DrainAppend | src/server.js:240-243 | chunk boundaries do not change what is handled |
| FrameDecoder.Frame | src/server.js:57-61 | a frame is the header, the 4 separator bytes and the body, and has their combined length |
| FrameDecoder.HeaderTextAscii | src/server.js:59 | the header written by `send` is ASCII, has no `\r`, and holds the decimal length after the key |
| FrameDecoder.HeaderMatches | src/server.js:253 | the header written by `send` matches, and gives back the decimal length written |
| FrameDecoder.SeparatorAfterHeader | src/server.js:247-256 | when no `\r\n\r\n` starts inside the header text, multi-line headers included, the separator after it is the first one, and the header bytes and the rest are cut where it stands |
| FrameDecoder.SeparatorAfterText | src/server.js:247-256 | after a header without `\r` the separator is the first one, and the header bytes and the rest are cut where it stands |
| FrameDecoder.HeaderLengthRoundTrip | src/server.js:253-260 | reading back the length of a written header gives the length written |
| FrameDecoder.FrameRoundTrip | src/server.js:245-267 | a frame followed by anything is delivered as exactly its body, leaving exactly what followed |
| FrameDecoder.SendDecodes | src/server.js:57-61 | what `send` writes decodes to the serialised message |
| FrameDecoder.DrainFrames | src/server.js:245-276 | a stream of frames is handled body by body, in order; unless the process exited it is consumed completely |
| FrameDecoder.SkipsHeaderWithoutLength | src/server.js:253-258 | an ASCII header, single- or multi-line, with no length anywhere and no separator inside it logs "Received payload without Content-Length header" and decoding continues right after its separator |
| FrameDecoder.StdioServer.constructor | src/server.js:283 | the buffer starts empty and the output holds the start-up log "Dummy MCP server started." |
| FrameDecoder.StdioServer.OnData | src/server.js:240-243 | the chunk is appended and the buffer is decoded: the new buffer, the new output and the exit flag are those of `Drain` on the old buffer plus the chunk |
| FrameDecoder.StdioServer.ProcessBuffer | src/server.js:245-276 | the loop leaves the state `Drain` describes: its rest as the buffer, the old output followed by its messages, and its exit flag |
| FrameDecoder.StdioServer.Pass | src/server.js:247-274 | one iteration: stops leaving everything unchanged, or drops a header without a length and logs, or cuts a frame, handles its body and records whether the process exits |
| FrameDecoder.StdioServer.OnEnd | src/server.js:278-281 | the end of stdin logs "Stdin stream ended. Shutting down." and exits |
| CodeIndex.RequiredString | src/index.ts:14-26 | a required string field is accepted exactly when it is present and a string |
| CodeIndex.OptionalString | src/index.ts:15-22 | an optional string field may be absent; `null` or any other type is rejected |
| CodeIndex.NumberOrDefault | src/index.ts:17-30 | an absent number field takes its default; a present one must be a number |
| CodeIndex.ParseSearch | src/index.ts:13-18 | arguments that are not an object give one object issue; otherwise it rejects exactly when some field fails its check (`query` missing or not a string, `repository` or `fileType` present and not a string, `limit` present and not a number), and then gives one issue per failing field, at that field's path, in the order query, repository, fileType, limit |
| CodeIndex.ParseFile | src/index.ts:20-23 | not an object gives one object issue; otherwise it rejects exactly when `filePath` is missing or not a string or `repository` is present and not a string, with one issue per failing field in the order filePath, repository |
| CodeIndex.ParseRepository | src/index.ts:25-27 | not an object gives one object issue; otherwise it rejects exactly when `repository` is missing or not a string, with the one issue at path `repository` |
| CodeIndex.ParseList | src/index.ts:29-31 | not an object gives one object issue; otherwise it rejects exactly when `limit` is present and not a number, with the one issue at path `limit` |
| CodeIndex.SearchDefaults | src/index.ts:13-18 | a search with only a query has no filters and the limit 10 |
| CodeIndex.ParseSearchAccepts | src/index.ts:13-18 | the search arguments are accepted exactly when every field has its schema type |
| CodeIndex.ListDefaults | src/index.ts:29-31 | an empty argument object lists with the limit 20 |
| CodeIndex.SliceEnd | src/index.ts:229 | `slice(0, end)` keeps the first `end` elements, or all when there are fewer; a negative end drops `-end` elements from the back, or all when there are fewer |
| CodeIndex.Filter | src/index.ts:220-227 | a snippet is kept exactly when it is in the table and satisfies the filters, and the kept ones keep their order |
| CodeIndex.SearchResultsSound | src/index.ts:220-229 | every result contains the query in its content or path, ignoring case, and satisfies the exact repository and file-type filters; the results keep table order; there are at most `limit` of them and at most 3 |
| CodeIndex.SearchResultsComplete | src/index.ts:220-229 | when the limit covers the table, every matching snippet is returned |
| CodeIndex.SearchResultsFirstMatches | src/index.ts:220-229 | for a non-negative limit the results are the first min(limit, matches) matches in table order, and a match is left out only when `limit` results were returned |
| CodeIndex.SearchResultsCut | src/index.ts:220-229 | for any limit, negative ones included, the results are exactly the matching snippets among the first n snippets of the table, for some n |
| CodeIndex.SearchResultsNoSkip | src/index.ts:220-229 | a later snippet is returned only if every earlier matching snippet is too |
| CodeIndex.SnippetsDistinct | src/index.ts:58-80 | the snippets of the index are pairwise different |
| CodeIndex.SubsequenceLength | src/index.ts:220 | a filtered table is no longer than the table |
| CodeIndex.PrefixSubsequence | src/index.ts:229 | cutting the results short keeps them in table order |
| CodeIndex.EmptyQueryMatchesAll | src/index.ts:221-226 | an empty query matches every snippet, leaving only the repository and file-type filters |
| CodeIndex.SearchCode | src/index.ts:216-245 | never an error; the text is `未找到匹配 "<query>" 的代码片段` exactly when there are no results |
| CodeIndex.JoinStartsWithFirst | src/index.ts:231-234 | the joined text begins with the whole rendering of the first result, and so with its line `文件: <filePath>` |
| CodeIndex.FileContentNames | src/index.ts:277 | the text names the file path and the repository |
| CodeIndex.GetFileContent | src/index.ts:247-281 | never an error; the text contains the file path, and the repository or `未指定` |
| CodeIndex.FileContentUnspecified | src/index.ts:252-277 | without a repository the text says `未指定` |
| CodeIndex.FindRepository | src/index.ts:286 | the first repository with exactly that name, or none when no name matches |
| CodeIndex.GetRepositoryInfo | src/index.ts:283-313 | an error exactly when no repository has the name, with the text `未找到仓库: <repository>`; otherwise the info text of a repository with that name |
| CodeIndex.RepositoryNamesListed | src/index.ts:35-57 | the index holds exactly three repositories, `frontend-app`, `backend-api` and `data-processing`, in that order |
| CodeIndex.KnownRepositories | src/index.ts:283-298 | the lookup succeeds exactly for the three names in the index |
| CodeIndex.ListedRepositories | src/index.ts:318 | the first `limit` repositories, all three when the limit is larger |
| CodeIndex.ListRepositories | src/index.ts:315-332 | never an error; the header reads `可用仓库 (<k>/3):` with k the number listed |
| CodeIndex.ListDefaultShowsAll | src/index.ts:316-328 | with the default limit all repositories are listed and the header reads `(3/3)` |
| CodeIndex.CallTool | src/index.ts:186-213 | an unknown tool name gives the error result `错误: 未知工具: <name>` |
| CodeIndex.InvalidArgumentsAreReported | src/index.ts:189-211 | arguments that fail a tool's schema give an error result `错误: ` followed by the validation message |
| CodeIndex.ErrorsHaveCauses | src/index.ts:186-213 | a call is an error exactly when the tool is unknown, its arguments fail their schema, or the repository asked for is unknown |
| CodeIndex.ListToolsShape | src/index.ts:105-183 | exactly four tools, named in the order the switch tests them; their required fields are `query`, `filePath`, `repository` and none, each a declared property |
| CodeIndex.AdvertisedDefaults | src/index.ts:126-177 | the defaults the tool list advertises, 10 and 20, are the ones the schemas apply |

## Left out

- Transport and libraries: the FastAPI, uvicorn and pydantic wiring around `mcp_handler` (`main`, `JSONResponse`, `model_dump`) and validation of the request record; the MCP SDK `Server`, `StdioServerTransport`, `onerror`, `run` and the SIGINT handler of `src/index.ts`. `scripts/test-mcp.js` and the test files are not part of this model.
- JSON text: `JSON.parse` is a parameter that returns the value or the error's text; `JSON.stringify` is a parameter. Numbers are integers: floats, NaN and fractional slice limits are not modelled.
- Text encoding: buffers are byte sequences; UTF-8 decoding of the header and body is not modelled. Header bytes below 128 are kept as characters, which is what the length match reads. The length `send` writes is the byte length of the serialised body.
- `toLowerCase` lower-cases ASCII letters only.
- `String(n)` of an integer is its decimal digits, also for magnitudes of 10^21 and more, which JavaScript prints in exponent form (`1e+21`).
- `Number.parseInt` on a length too large for a double is read exactly.
- The zod error message: `CallTool` takes the rendering of the failed checks as a parameter, because its text is produced by the library.
- Python `repr` of a string is modelled as the text between single quotes, with nothing escaped. That is Python's rendering only for strings without quotes, backslashes, newlines, tabs or other control and non-printable characters. Python switches to double quotes when the string holds a `'` and no `"`, and escapes backslashes, newlines, control and non-printable characters; none of this is modelled.
- Side effects: `process.stdout.write` appends to the `output` sequence, and `process.exit` sets the `exited` flag. Output still buffered when the process exits is not modelled.
- FrameDecoder.StdioServer.OnData: after the process has exited, a further chunk changes nothing, since no further code runs.
- HttpDispatcher.Handle: a call to `dummy_rag_query` whose `arguments` are truthy but not a dictionary raises (`.get` is missing), and the model returns a `Raise` outcome there. It does not claim that every case returns a normal reply.
- RpcDispatcher.HandleMessage: some messages throw a `TypeError` before anything is sent: a `null` message; `tools/call` on `fetchRepositoryContext` with `arguments: null`; and a request where `String(v)` or `${v}` meets a value with its own `toString` key (`ThrowsExactly` lists the sites). The surrounding `try` in `processBuffer` logs it as a failed parse. It is modelled as a `Threw` outcome and logged by `FrameDecoder.Dispatch`.
