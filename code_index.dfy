/**
 * The code-indexing tool server: four tools over a fixed, in-memory index
 * of repositories and code snippets.  Arguments are checked against an
 * object schema first (required fields present and of the right type,
 * defaults filled in); a failed check, like an unknown tool name, becomes
 * an error result rather than an exception.
 */
module CodeIndex {
  import opened Wrappers
  import opened Text
  import opened Json

  // ---------------------------------------------------------------------
  // The index

  datatype Repository = Repository(name: string, description: string, language: string, files: nat, lastUpdated: string)

  datatype Snippet = Snippet(content: string, filePath: string, repository: string, language: string, lineNumber: nat)

  const Repositories: seq<Repository> := [
    Repository("frontend-app", "React前端应用", "TypeScript", 150, "2024-01-15"),
    Repository("backend-api", "Node.js后端API服务", "JavaScript", 200, "2024-01-14"),
    Repository("data-processing", "Python数据处理模块", "Python", 80, "2024-01-13")
  ]

  const Snippets: seq<Snippet> := [
    Snippet("function calculateTotal(items) {\n  return items.reduce((sum, item) => sum + item.price, 0);\n}",
      "frontend-app/src/utils/calculations.ts", "frontend-app", "typescript", 15),
    Snippet("async function fetchUserData(userId) {\n  const response = await fetch(`/api/users/${userId}`);\n  return response.json();\n}",
      "backend-api/src/controllers/userController.js", "backend-api", "javascript", 42),
    Snippet("def process_data(data):\n    \"\"\"处理输入数据并返回清洗后的结果\"\"\"\n    cleaned_data = [item.strip() for item in data if item]\n    return cleaned_data",
      "data-processing/src/processors/data_cleaner.py", "data-processing", "python", 8)
  ]

  // ---------------------------------------------------------------------
  // Argument schemas

  /** One failed check: where, what was expected, and the type found. */
  datatype Issue = Issue(path: seq<string>, expected: string, received: string)

  /** The name the schema library gives the type of a value; `None` is `undefined`. */
  function ParsedType(v: Option<Json>): string {
    match v
    case None => "undefined"
    case Some(JNull) => "null"
    case Some(JBool(_)) => "boolean"
    case Some(JNum(_)) => "number"
    case Some(JStr(_)) => "string"
    case Some(JArr(_)) => "array"
    case Some(JObj(_)) => "object"
  }

  /** `z.string()`. */
  function RequiredString(fields: seq<(string, Json)>, key: string): (r: Result<string, Issue>)
    ensures r.Success? <==> exists s :: Lookup(fields, key) == Some(JStr(s))
    ensures r.Success? ==> Lookup(fields, key) == Some(JStr(r.value))
    ensures r.Failure? ==> r.error.path == [key]
  {
    match Lookup(fields, key)
    case Some(JStr(s)) => Success(s)
    case v => Failure(Issue([key], "string", ParsedType(v)))
  }

  /** `z.string().optional()`: an absent key is allowed, `null` is not. */
  function OptionalString(fields: seq<(string, Json)>, key: string): (r: Result<Option<string>, Issue>)
    ensures Lookup(fields, key) == None ==> r == Success(None)
    ensures r.Success? && r.value.Some? ==> Lookup(fields, key) == Some(JStr(r.value.value))
    ensures r.Failure? <==> Lookup(fields, key).Some? && !Lookup(fields, key).value.JStr?
    ensures r.Failure? ==> r.error.path == [key]
  {
    match Lookup(fields, key)
    case None => Success(None)
    case Some(JStr(s)) => Success(Some(s))
    case v => Failure(Issue([key], "string", ParsedType(v)))
  }

  /** `z.number().optional().default(d)`. */
  function NumberOrDefault(fields: seq<(string, Json)>, key: string, default: int): (r: Result<int, Issue>)
    ensures Lookup(fields, key) == None ==> r == Success(default)
    ensures r.Success? && Lookup(fields, key).Some? ==> Lookup(fields, key) == Some(JNum(r.value))
    ensures r.Failure? <==> Lookup(fields, key).Some? && !Lookup(fields, key).value.JNum?
    ensures r.Failure? ==> r.error.path == [key]
  {
    match Lookup(fields, key)
    case None => Success(default)
    case Some(JNum(n)) => Success(n)
    case v => Failure(Issue([key], "number", ParsedType(v)))
  }

  function IssuesOf<T>(r: Result<T, Issue>): seq<Issue> {
    if r.Failure? then [r.error] else []
  }

  /** The issue raised when `arguments` is not an object at all. */
  const NotAnObject := Issue([], "object", "undefined")

  // What each schema rejects, read off the raw fields: the paths of the
  // failing fields, in the order the schema declares them.

  /** A string field fails when it is missing and required, or present and not a string. */
  predicate StringFails(fields: seq<(string, Json)>, key: string, required: bool) {
    match Lookup(fields, key)
    case None => required
    case Some(v) => !v.JStr?
  }

  /** A number field with a default fails only when it is present and not a number. */
  predicate NumberFails(fields: seq<(string, Json)>, key: string) {
    Lookup(fields, key).Some? && !Lookup(fields, key).value.JNum?
  }

  function FailedAt(fails: bool, key: string): seq<seq<string>> {
    if fails then [[key]] else []
  }

  function Paths(issues: seq<Issue>): seq<seq<string>> {
    seq(|issues|, i requires 0 <= i < |issues| => issues[i].path)
  }

  lemma PathsAppend(a: seq<Issue>, b: seq<Issue>)
    ensures Paths(a + b) == Paths(a) + Paths(b)
  {
    assert forall i :: 0 <= i < |a + b| ==> Paths(a + b)[i] == (Paths(a) + Paths(b))[i];
  }

  lemma PathsOfField<T>(r: Result<T, Issue>, fails: bool, key: string)
    requires r.Failure? <==> fails
    requires r.Failure? ==> r.error.path == [key]
    ensures Paths(IssuesOf(r)) == FailedAt(fails, key)
  {
  }

  const SearchLimitDefault := 10
  const ListLimitDefault := 20

  datatype SearchArgs = SearchArgs(query: string, repository: Option<string>, fileType: Option<string>, limit: int)
  datatype FileArgs = FileArgs(filePath: string, repository: Option<string>)

  function SearchFailures(fields: seq<(string, Json)>): seq<seq<string>> {
    FailedAt(StringFails(fields, "query", true), "query")
    + FailedAt(StringFails(fields, "repository", false), "repository")
    + FailedAt(StringFails(fields, "fileType", false), "fileType")
    + FailedAt(NumberFails(fields, "limit"), "limit")
  }

  /** `SearchCodeSchema.parse(args)`: every failed field is reported, in schema order. */
  function ParseSearch(args: Option<seq<(string, Json)>>): (r: Result<SearchArgs, seq<Issue>>)
    ensures r.Failure? ==> |r.error| > 0
    ensures args.None? ==> r == Failure([NotAnObject])
    ensures args.Some? ==> (r.Failure? <==> SearchFailures(args.value) != [])
    ensures args.Some? && r.Failure? ==> Paths(r.error) == SearchFailures(args.value)
  {
    match args
    case None => Failure([NotAnObject])
    case Some(fields) =>
      var query := RequiredString(fields, "query");
      var repository := OptionalString(fields, "repository");
      var fileType := OptionalString(fields, "fileType");
      var limit := NumberOrDefault(fields, "limit", SearchLimitDefault);
      PathsOfField(query, StringFails(fields, "query", true), "query");
      PathsOfField(repository, StringFails(fields, "repository", false), "repository");
      PathsOfField(fileType, StringFails(fields, "fileType", false), "fileType");
      PathsOfField(limit, NumberFails(fields, "limit"), "limit");
      PathsAppend(IssuesOf(query), IssuesOf(repository));
      PathsAppend(IssuesOf(query) + IssuesOf(repository), IssuesOf(fileType));
      PathsAppend(IssuesOf(query) + IssuesOf(repository) + IssuesOf(fileType), IssuesOf(limit));
      if query.Success? && repository.Success? && fileType.Success? && limit.Success? then
        Success(SearchArgs(query.value, repository.value, fileType.value, limit.value))
      else
        Failure(IssuesOf(query) + IssuesOf(repository) + IssuesOf(fileType) + IssuesOf(limit))
  }

  function FileFailures(fields: seq<(string, Json)>): seq<seq<string>> {
    FailedAt(StringFails(fields, "filePath", true), "filePath")
    + FailedAt(StringFails(fields, "repository", false), "repository")
  }

  /** `GetFileContentSchema.parse(args)`. */
  function ParseFile(args: Option<seq<(string, Json)>>): (r: Result<FileArgs, seq<Issue>>)
    ensures r.Failure? ==> |r.error| > 0
    ensures args.None? ==> r == Failure([NotAnObject])
    ensures args.Some? ==> (r.Failure? <==> FileFailures(args.value) != [])
    ensures args.Some? && r.Failure? ==> Paths(r.error) == FileFailures(args.value)
  {
    match args
    case None => Failure([NotAnObject])
    case Some(fields) =>
      var filePath := RequiredString(fields, "filePath");
      var repository := OptionalString(fields, "repository");
      PathsOfField(filePath, StringFails(fields, "filePath", true), "filePath");
      PathsOfField(repository, StringFails(fields, "repository", false), "repository");
      PathsAppend(IssuesOf(filePath), IssuesOf(repository));
      if filePath.Success? && repository.Success? then Success(FileArgs(filePath.value, repository.value))
      else Failure(IssuesOf(filePath) + IssuesOf(repository))
  }

  /** `GetRepositoryInfoSchema.parse(args)`, giving the repository name. */
  function ParseRepository(args: Option<seq<(string, Json)>>): (r: Result<string, seq<Issue>>)
    ensures r.Failure? ==> |r.error| > 0
    ensures args.None? ==> r == Failure([NotAnObject])
    ensures args.Some? ==> (r.Failure? <==> StringFails(args.value, "repository", true))
    ensures args.Some? && r.Failure? ==> Paths(r.error) == [["repository"]]
  {
    match args
    case None => Failure([NotAnObject])
    case Some(fields) =>
      var repository := RequiredString(fields, "repository");
      if repository.Success? then Success(repository.value) else Failure([repository.error])
  }

  /** `ListRepositoriesSchema.parse(args)`, giving the limit. */
  function ParseList(args: Option<seq<(string, Json)>>): (r: Result<int, seq<Issue>>)
    ensures r.Failure? ==> |r.error| > 0
    ensures args.None? ==> r == Failure([NotAnObject])
    ensures args.Some? ==> (r.Failure? <==> NumberFails(args.value, "limit"))
    ensures args.Some? && r.Failure? ==> Paths(r.error) == [["limit"]]
  {
    match args
    case None => Failure([NotAnObject])
    case Some(fields) =>
      var limit := NumberOrDefault(fields, "limit", ListLimitDefault);
      if limit.Success? then Success(limit.value) else Failure([limit.error])
  }

  /** A search with only a query gets no filters and the limit 10. */
  lemma SearchDefaults(query: string)
    ensures ParseSearch(Some([("query", JStr(query))])) == Success(SearchArgs(query, None, None, 10))
  {
    var fields := [("query", JStr(query))];
    LookupLast(fields, 0, "query");
    LookupAbsent(fields, "repository");
    LookupAbsent(fields, "fileType");
    LookupAbsent(fields, "limit");
  }

  /** The search arguments are accepted exactly when each field has its schema type. */
  lemma ParseSearchAccepts(fields: seq<(string, Json)>)
    ensures ParseSearch(Some(fields)).Success? <==>
      && (exists s :: Lookup(fields, "query") == Some(JStr(s)))
      && (Lookup(fields, "repository") == None || Lookup(fields, "repository").value.JStr?)
      && (Lookup(fields, "fileType") == None || Lookup(fields, "fileType").value.JStr?)
      && (Lookup(fields, "limit") == None || Lookup(fields, "limit").value.JNum?)
  {
  }

  /** An empty argument object lists with the limit 20. */
  lemma ListDefaults()
    ensures ParseList(Some([])) == Success(20)
  {
    LookupAbsent([], "limit");
  }

  // ---------------------------------------------------------------------
  // Sequences

  /** `xs` keeps some of the elements of `ys`, in their order. */
  predicate Subsequence<T(==)>(xs: seq<T>, ys: seq<T>)
    decreases |ys|
  {
    |xs| == 0 || (|ys| > 0 && if xs[0] == ys[0] then Subsequence(xs[1..], ys[1..]) else Subsequence(xs, ys[1..]))
  }

  /**
   * How many elements `xs.slice(0, end)` keeps of `length`: the first `end`,
   * or all when there are fewer; a negative end drops `-end` from the back,
   * or everything when there are fewer.
   */
  function SliceEnd(length: nat, end: int): (k: nat)
    ensures k <= length
    ensures end >= 0 ==> k == end || (k == length && length < end)
    ensures end < 0 ==> length - k == -end || (k == 0 && length < -end)
  {
    if end < 0 then (if length + end < 0 then 0 else length + end)
    else if end < length then end
    else length
  }

  // ---------------------------------------------------------------------
  // search_code

  predicate Falsy(s: Option<string>) {
    s.None? || s.value == ""
  }

  /** The filter of `searchCode`: a case-blind query in the content or the path, and the exact filters. */
  predicate Matches(s: Snippet, a: SearchArgs) {
    && (Contains(ToLower(s.content), ToLower(a.query)) || Contains(ToLower(s.filePath), ToLower(a.query)))
    && (Falsy(a.repository) || s.repository == a.repository.value)
    && (Falsy(a.fileType) || s.language == a.fileType.value)
  }

  /** The callback `searchCode` passes to `filter`. */
  function MatchesOf(a: SearchArgs): Snippet -> bool {
    s => Matches(s, a)
  }

  /** `snippets.filter(keep)`. */
  function Filter(snippets: seq<Snippet>, keep: Snippet -> bool): (r: seq<Snippet>)
    ensures forall s :: s in r <==> s in snippets && keep(s)
    ensures Subsequence(r, snippets)
    decreases |snippets|
  {
    if |snippets| == 0 then []
    else
      var rest := Filter(snippets[1..], keep);
      if keep(snippets[0]) then [snippets[0]] + rest
      else
        assert |rest| > 0 ==> rest[0] in rest;
        rest
  }

  /** The results of a search: the matching snippets, cut to the limit. */
  function SearchResults(a: SearchArgs): seq<Snippet> {
    var matching := Filter(Snippets, MatchesOf(a));
    matching[..SliceEnd(|matching|, a.limit)]
  }

  /**
   * Every result satisfies the filters, the results keep the index order,
   * and there are at most `limit` of them (and never more than the index holds).
   */
  lemma SearchResultsSound(a: SearchArgs)
    ensures var r := SearchResults(a);
      && (forall s :: s in r ==> s in Snippets && Matches(s, a))
      && |r| <= |Snippets|
      && (a.limit >= 0 ==> |r| <= a.limit)
      && Subsequence(r, Snippets)
  {
    var matching := Filter(Snippets, MatchesOf(a));
    var k := SliceEnd(|matching|, a.limit);
    PrefixSubsequence(matching, Snippets, k);
    SubsequenceLength(matching, Snippets);
    PrefixKept(Snippets, MatchesOf(a), k);
  }

  /** Every element of a leading part of a filter is an element the filter keeps. */
  lemma PrefixKept(ss: seq<Snippet>, keep: Snippet -> bool, k: nat)
    requires k <= |Filter(ss, keep)|
    ensures forall s :: s in Filter(ss, keep)[..k] ==> s in ss && keep(s)
  {
    var f := Filter(ss, keep);
    forall s | s in f[..k] ensures s in f {
      var p :| 0 <= p < k && f[..k][p] == s;
      assert f[p] == s;
    }
  }

  /**
   * The results are the first `limit` matches in table order: a match left
   * out means the limit was reached, and no match is skipped in favour of a
   * later one.
   */
  lemma SearchResultsFirstMatches(a: SearchArgs)
    requires a.limit >= 0
    ensures var m := Filter(Snippets, MatchesOf(a)); var r := SearchResults(a);
      && r == m[..|r|]
      && |r| == (if a.limit < |m| then a.limit else |m|)
      && (forall s :: s in Snippets && Matches(s, a) && s !in r ==> |r| == a.limit)
  {
    var m := Filter(Snippets, MatchesOf(a));
    var r := SearchResults(a);
    assert a.limit >= |m| ==> r == m;
  }

  /** The results are exactly the matches among some leading part of the table. */
  lemma SearchResultsCut(a: SearchArgs)
    ensures exists n :: 0 <= n <= |Snippets| && SearchResults(a) == Filter(Snippets[..n], MatchesOf(a))
  {
    var f := Filter(Snippets, MatchesOf(a));
    SubsequenceLength(f, Snippets);
    var n := FilterPrefixCut(Snippets, MatchesOf(a), SliceEnd(|f|, a.limit));
  }

  /** No later match is returned while an earlier one is left out. */
  lemma SearchResultsNoSkip(a: SearchArgs, i: nat, j: nat)
    requires i < j < |Snippets| && Matches(Snippets[i], a) && Snippets[j] in SearchResults(a)
    ensures Snippets[i] in SearchResults(a)
  {
    SnippetsDistinct();
    SearchResultsCut(a);
    var n :| 0 <= n <= |Snippets| && SearchResults(a) == Filter(Snippets[..n], MatchesOf(a));
    CutKeepsEarlier(Snippets, MatchesOf(a), n, i, j);
  }

  /** The snippets of the table are pairwise different. */
  lemma SnippetsDistinct()
    ensures forall p, q :: 0 <= p < q < |Snippets| ==> Snippets[p] != Snippets[q]
  {
    assert Snippets[0].lineNumber == 15 && Snippets[1].lineNumber == 42 && Snippets[2].lineNumber == 8;
  }

  /** In a sequence without repeats, a cut that keeps a later element keeps every earlier kept one. */
  lemma CutKeepsEarlier(ss: seq<Snippet>, keep: Snippet -> bool, n: nat, i: nat, j: nat)
    requires forall p, q :: 0 <= p < q < |ss| ==> ss[p] != ss[q]
    requires n <= |ss| && i < j < |ss| && keep(ss[i]) && ss[j] in Filter(ss[..n], keep)
    ensures ss[i] in Filter(ss[..n], keep)
  {
    var pre := ss[..n];
    assert ss[j] in pre;
    var p :| 0 <= p < |pre| && pre[p] == ss[j];
    assert p == j;
    assert pre[i] == ss[i];
  }

  /** The first `k` kept elements are what filtering the first `n` elements keeps, for some `n`. */
  lemma {:induction false} FilterPrefixCut(ss: seq<Snippet>, keep: Snippet -> bool, k: nat) returns (n: nat)
    requires k <= |Filter(ss, keep)|
    ensures n <= |ss| && Filter(ss, keep)[..k] == Filter(ss[..n], keep)
    decreases |ss|
  {
    if k == 0 {
      n := 0;
    } else {
      var tail := ss[1..];
      var m := FilterPrefixCut(tail, keep, if keep(ss[0]) then k - 1 else k);
      n := m + 1;
      assert ss[..n][1..] == tail[..m];
      assert ss[..n][0] == ss[0];
    }
  }

  /** Within the limit, every matching snippet is found. */
  lemma SearchResultsComplete(a: SearchArgs, s: Snippet)
    requires s in Snippets && Matches(s, a)
    requires a.limit >= |Snippets|
    ensures s in SearchResults(a)
  {
    var matching := Filter(Snippets, MatchesOf(a));
    SubsequenceLength(matching, Snippets);
    assert matching[..SliceEnd(|matching|, a.limit)] == matching;
  }

  lemma {:induction false} SubsequenceLength<T>(xs: seq<T>, ys: seq<T>)
    requires Subsequence(xs, ys)
    ensures |xs| <= |ys|
    decreases |ys|
  {
    if |xs| > 0 {
      if xs[0] == ys[0] {
        SubsequenceLength(xs[1..], ys[1..]);
      } else {
        SubsequenceLength(xs, ys[1..]);
      }
    }
  }

  /** Cutting a subsequence short leaves a subsequence. */
  lemma {:induction false} PrefixSubsequence<T>(xs: seq<T>, ys: seq<T>, k: nat)
    requires Subsequence(xs, ys) && k <= |xs|
    ensures Subsequence(xs[..k], ys)
    decreases |ys|
  {
    if k > 0 {
      if xs[0] == ys[0] {
        PrefixSubsequence(xs[1..], ys[1..], k - 1);
        assert xs[..k][1..] == xs[1..][..k - 1];
      } else {
        PrefixSubsequence(xs, ys[1..], k);
      }
    }
  }

  /** An empty query matches every snippet; only the exact filters remain. */
  lemma EmptyQueryMatchesAll(s: Snippet, a: SearchArgs)
    requires a.query == ""
    ensures Matches(s, a) <==>
      (Falsy(a.repository) || s.repository == a.repository.value) && (Falsy(a.fileType) || s.language == a.fileType.value)
  {
    assert ToLower("") == "";
    ContainsEmpty(ToLower(s.content));
  }

  /** How one result is rendered. */
  function RenderSnippet(s: Snippet): string {
    "文件: " + s.filePath + "\n仓库: " + s.repository + "\n行号: " + NatToDecimal(s.lineNumber)
    + "\n语言: " + s.language + "\n代码:\n```" + s.language + "\n" + s.content + "\n```\n"
  }

  function NoMatchText(query: string): string {
    "未找到匹配 \"" + query + "\" 的代码片段"
  }

  datatype ToolResult = ToolResult(text: string, isError: bool)

  function SearchCode(a: SearchArgs): (r: ToolResult)
    ensures !r.isError
    ensures SearchResults(a) == [] <==> r.text == NoMatchText(a.query)
  {
    var results := SearchResults(a);
    if |results| > 0 then
      var text := Join(seq(|results|, i requires 0 <= i < |results| => RenderSnippet(results[i])), "\n---\n\n");
      assert text[0] == '文' by { JoinStartsWithFirst(results); }
      assert NoMatchText(a.query)[0] == '未';
      ToolResult(text, false)
    else ToolResult(NoMatchText(a.query), false)
  }

  /** The rendered results begin with the whole rendering of the first one, and so with its `文件: ` line. */
  lemma JoinStartsWithFirst(results: seq<Snippet>)
    requires |results| > 0
    ensures var text := Join(seq(|results|, i requires 0 <= i < |results| => RenderSnippet(results[i])), "\n---\n\n");
      && StartsWith(text, RenderSnippet(results[0]))
      && StartsWith(text, "文件: " + results[0].filePath + "\n")
  {
    var xs := seq(|results|, i requires 0 <= i < |results| => RenderSnippet(results[i]));
    var first := RenderSnippet(results[0]);
    var line := "文件: " + results[0].filePath + "\n";
    assert xs[0] == first;
    JoinStartsWithHead(xs, "\n---\n\n");
    assert first[..|line|] == line;
    StartsWithTrans(Join(xs, "\n---\n\n"), first, line);
  }

  // ---------------------------------------------------------------------
  // get_file_content

  /** `repository || '未指定'`. */
  function RepositoryOrUnspecified(repository: Option<string>): string {
    if Falsy(repository) then "未指定" else repository.value
  }

  /** The made-up file body. */
  function MockFileContent(filePath: string, repository: Option<string>): string {
    "// 这是文件 " + filePath + " 的模拟内容\n// 仓库: " + RepositoryOrUnspecified(repository)
    + "\n// 最后更新: 2024-01-15\n\nimport React from 'react';\n\ninterface Props {\n  title: string;\n  children: React.ReactNode;\n}\n\n"
    + "export const Component: React.FC<Props> = ({ title, children }) => {\n  return (\n    <div className=\"component\">\n      <h1>{title}</h1>\n      {children}\n    </div>\n  );\n};\n\nexport default Component;"
  }

  /** The text `get_file_content` returns, around the made-up body. */
  function FileContentText(filePath: string, repository: string, body: string): string {
    "文件路径: " + filePath + "\n仓库: " + repository + FileContentTail(body)
  }

  function FileContentTail(body: string): string {
    "\n\n内容:\n```typescript\n" + body + "\n```"
  }

  /** The text names the file and the repository. */
  lemma FileContentNames(filePath: string, repository: string, body: string)
    ensures Contains(FileContentText(filePath, repository, body), filePath)
    ensures Contains(FileContentText(filePath, repository, body), repository)
  {
    var tail := FileContentTail(body);
    ContainsMiddle("文件路径: " + filePath + "\n仓库: ", repository, tail);
    ContainsMiddle("文件路径: ", filePath, "\n仓库: " + repository + tail);
    assert "文件路径: " + filePath + "\n仓库: " + repository + tail
      == "文件路径: " + filePath + ("\n仓库: " + repository + tail);
  }

  function GetFileContent(a: FileArgs): (r: ToolResult)
    ensures !r.isError
    ensures Contains(r.text, a.filePath) && Contains(r.text, RepositoryOrUnspecified(a.repository))
  {
    var repository := RepositoryOrUnspecified(a.repository);
    FileContentNames(a.filePath, repository, MockFileContent(a.filePath, a.repository));
    ToolResult(FileContentText(a.filePath, repository, MockFileContent(a.filePath, a.repository)), false)
  }

  /** Without a repository the text says `未指定`. */
  lemma FileContentUnspecified(a: FileArgs)
    requires Falsy(a.repository)
    ensures Contains(GetFileContent(a).text, "未指定")
  {
  }

  // ---------------------------------------------------------------------
  // get_repository_info

  /** Index of the first repository named exactly `name`. */
  function FindRepository(rs: seq<Repository>, name: string): (r: Option<nat>)
    ensures r.Some? ==> r.value < |rs| && rs[r.value].name == name
    ensures r.Some? ==> forall j :: 0 <= j < r.value ==> rs[j].name != name
    ensures r.None? ==> forall j :: 0 <= j < |rs| ==> rs[j].name != name
    decreases |rs|
  {
    if |rs| == 0 then None
    else if rs[0].name == name then Some(0)
    else match FindRepository(rs[1..], name)
      case None => None
      case Some(i) => Some(i + 1)
  }

  function RepositoryInfoText(r: Repository): string {
    "仓库信息:\n名称: " + r.name + "\n描述: " + r.description + "\n主要语言: " + r.language
    + "\n文件数量: " + NatToDecimal(r.files) + "\n最后更新: " + r.lastUpdated
  }

  function GetRepositoryInfo(name: string): (r: ToolResult)
    ensures r.isError <==> forall j :: 0 <= j < |Repositories| ==> Repositories[j].name != name
    ensures r.isError ==> r.text == "未找到仓库: " + name
    ensures !r.isError ==> exists j :: 0 <= j < |Repositories| && Repositories[j].name == name && r.text == RepositoryInfoText(Repositories[j])
  {
    match FindRepository(Repositories, name)
    case None => ToolResult("未找到仓库: " + name, true)
    case Some(i) => ToolResult(RepositoryInfoText(Repositories[i]), false)
  }

  /** The index holds exactly three repositories, with these names in this order. */
  lemma RepositoryNamesListed()
    ensures |Repositories| == 3
    ensures forall j :: 0 <= j < |Repositories| ==> Repositories[j].name == ["frontend-app", "backend-api", "data-processing"][j]
  {
  }

  /** The three names in the index are the ones found. */
  lemma KnownRepositories(name: string)
    ensures !GetRepositoryInfo(name).isError <==> name == "frontend-app" || name == "backend-api" || name == "data-processing"
  {
    RepositoryNamesListed();
  }

  // ---------------------------------------------------------------------
  // list_repositories

  function RepositoryLine(r: Repository): string {
    "- " + r.name + ": " + r.description + " (" + r.language + ", " + NatToDecimal(r.files) + " 文件)"
  }

  function ListHeader(shown: nat, total: nat): string {
    "可用仓库 (" + NatToDecimal(shown) + "/" + NatToDecimal(total) + "):\n\n"
  }

  /** The repositories `list_repositories` shows for a limit. */
  function ListedRepositories(limit: int): (rs: seq<Repository>)
    ensures |rs| <= |Repositories| && rs == Repositories[..|rs|]
    ensures limit >= 0 ==> |rs| == if limit < |Repositories| then limit else |Repositories|
  {
    Repositories[..SliceEnd(|Repositories|, limit)]
  }

  function ListRepositories(limit: int): (r: ToolResult)
    ensures !r.isError
    ensures StartsWith(r.text, ListHeader(|ListedRepositories(limit)|, 3))
  {
    var rs := ListedRepositories(limit);
    var header := ListHeader(|rs|, |Repositories|);
    var body := Join(seq(|rs|, i requires 0 <= i < |rs| => RepositoryLine(rs[i])), "\n");
    assert (header + body)[..|header|] == header;
    ToolResult(header + body, false)
  }

  /** With the default limit every repository is listed and the header reads `(3/3)`. */
  lemma ListDefaultShowsAll()
    ensures ListedRepositories(ListLimitDefault) == Repositories
    ensures ListHeader(|ListedRepositories(ListLimitDefault)|, |Repositories|) == "可用仓库 (3/3):\n\n"
  {
    assert Repositories[..3] == Repositories;
  }

  // ---------------------------------------------------------------------
  // The tool-call handler

  const ToolNames := ["search_code", "get_file_content", "get_repository_info", "list_repositories"]

  /** The text of a caught error. */
  function ErrorResult(message: string): ToolResult {
    ToolResult("错误: " + message, true)
  }

  /**
   * The `CallToolRequestSchema` handler.  `render` stands for the message
   * text of the schema library's validation error.
   */
  function CallTool(name: string, args: Option<seq<(string, Json)>>, render: seq<Issue> -> string): (r: ToolResult)
    ensures name !in ToolNames ==> r == ErrorResult("未知工具: " + name)
  {
    if name == "search_code" then CallSearch(args, render)
    else if name == "get_file_content" then CallFile(args, render)
    else if name == "get_repository_info" then CallRepository(args, render)
    else if name == "list_repositories" then CallList(args, render)
    else ErrorResult("未知工具: " + name)
  }

  /** `searchCode(args)` under the handler's catch. */
  function CallSearch(args: Option<seq<(string, Json)>>, render: seq<Issue> -> string): ToolResult {
    match ParseSearch(args)
    case Failure(issues) => ErrorResult(render(issues))
    case Success(a) => SearchCode(a)
  }

  /** `getFileContent(args)` under the handler's catch. */
  function CallFile(args: Option<seq<(string, Json)>>, render: seq<Issue> -> string): ToolResult {
    match ParseFile(args)
    case Failure(issues) => ErrorResult(render(issues))
    case Success(a) => GetFileContent(a)
  }

  /** `getRepositoryInfo(args)` under the handler's catch. */
  function CallRepository(args: Option<seq<(string, Json)>>, render: seq<Issue> -> string): ToolResult {
    match ParseRepository(args)
    case Failure(issues) => ErrorResult(render(issues))
    case Success(repository) => GetRepositoryInfo(repository)
  }

  /** `listRepositories(args)` under the handler's catch. */
  function CallList(args: Option<seq<(string, Json)>>, render: seq<Issue> -> string): ToolResult {
    match ParseList(args)
    case Failure(issues) => ErrorResult(render(issues))
    case Success(limit) => ListRepositories(limit)
  }

  /** Arguments that fail their schema give an error result carrying the rendered issues. */
  lemma InvalidArgumentsAreReported(args: Option<seq<(string, Json)>>, render: seq<Issue> -> string)
    ensures ParseSearch(args).Failure? ==>
      CallTool("search_code", args, render) == ErrorResult(render(ParseSearch(args).error))
    ensures ParseFile(args).Failure? ==>
      CallTool("get_file_content", args, render) == ErrorResult(render(ParseFile(args).error))
    ensures ParseRepository(args).Failure? ==>
      CallTool("get_repository_info", args, render) == ErrorResult(render(ParseRepository(args).error))
    ensures ParseList(args).Failure? ==>
      CallTool("list_repositories", args, render) == ErrorResult(render(ParseList(args).error))
  {
  }

  /**
   * An error result comes only from an unknown tool, a failed schema check,
   * or an unknown repository; every tool otherwise succeeds.
   */
  lemma ErrorsHaveCauses(name: string, args: Option<seq<(string, Json)>>, render: seq<Issue> -> string)
    ensures CallTool(name, args, render).isError <==>
      || name !in ToolNames
      || (name == "search_code" && ParseSearch(args).Failure?)
      || (name == "get_file_content" && ParseFile(args).Failure?)
      || (name == "get_repository_info" && (ParseRepository(args).Failure? || GetRepositoryInfo(ParseRepository(args).value).isError))
      || (name == "list_repositories" && ParseList(args).Failure?)
  {
  }

  // ---------------------------------------------------------------------
  // The tool list

  datatype Property = Property(name: string, jsonType: string, description: string, default: Option<int>)
  datatype ToolSpec = ToolSpec(name: string, description: string, properties: seq<Property>, required: seq<string>)

  /** The `ListToolsRequestSchema` handler's tool list. */
  function ListTools(): seq<ToolSpec> {
    [
      ToolSpec("search_code", "在代码库中搜索代码片段", [
        Property("query", "string", "搜索查询字符串", None),
        Property("repository", "string", "指定仓库名称（可选）", None),
        Property("fileType", "string", "文件类型过滤（可选）", None),
        Property("limit", "number", "返回结果数量限制", Some(SearchLimitDefault))
      ], ["query"]),
      ToolSpec("get_file_content", "获取指定文件的内容", [
        Property("filePath", "string", "文件路径", None),
        Property("repository", "string", "指定仓库名称（可选）", None)
      ], ["filePath"]),
      ToolSpec("get_repository_info", "获取仓库信息", [
        Property("repository", "string", "仓库名称", None)
      ], ["repository"]),
      ToolSpec("list_repositories", "列出所有可用的仓库", [
        Property("limit", "number", "返回结果数量限制", Some(ListLimitDefault))
      ], [])
    ]
  }

  /**
   * Four tools, in the order the handler switches on them, each with its
   * required fields; every required field is a declared property.
   */
  lemma ListToolsShape()
    ensures |ListTools()| == 4
    ensures forall i :: 0 <= i < 4 ==> ListTools()[i].name == ToolNames[i]
    ensures ListTools()[0].required == ["query"]
    ensures ListTools()[1].required == ["filePath"]
    ensures ListTools()[2].required == ["repository"]
    ensures ListTools()[3].required == []
    ensures forall i, k :: 0 <= i < 4 && 0 <= k < |ListTools()[i].required| ==>
      exists p :: p in ListTools()[i].properties && p.name == ListTools()[i].required[k]
  {
    var t := ListTools();
    assert t[0].properties[0].name == "query";
    assert t[1].properties[0].name == "filePath";
    assert t[2].properties[0].name == "repository";
  }

  /** The defaults the list advertises are the ones the schemas apply. */
  lemma AdvertisedDefaults()
    ensures ListTools()[0].properties[3] == Property("limit", "number", "返回结果数量限制", Some(SearchLimitDefault))
    ensures ListTools()[3].properties[0] == Property("limit", "number", "返回结果数量限制", Some(ListLimitDefault))
    ensures forall fields: seq<(string, Json)> :: Lookup(fields, "limit") == None ==>
      ParseList(Some(fields)) == Success(ListLimitDefault)
  {
  }
}
