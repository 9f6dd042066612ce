/**
 * The JSON-RPC server (`src/mcp_server.py`): request dispatch over five
 * methods with the error codes of section 5.1 of the JSON-RPC 2.0
 * specification, the response envelopes of section 5, the two tools, the
 * `codebase://` resources and the per-line decision of the stdin loop.
 *
 * Handlers that raise are modelled as `Failure(text)`, where `text` is
 * `str(e)` of the exception. The specification of every reply is the
 * function `Respond`; the `Server` class computes it with the store's methods.
 */
module McpServer {
  import opened Wrappers
  import opened Sequences
  import opened Strings
  import opened Values
  import VectorStore
  import Embeddings

  const JsonRpcVersion := "2.0"
  const ParseError := -32700
  const MethodNotFound := -32601
  const InternalError := -32603
  const ProtocolVersion := "2024-11-05"
  const ServerName := "codebase-patterns-mcp"
  const ServerVersion := "0.1.0"
  const DefaultLimit := 5
  const PreviewLength := 500
  const UriPrefix := "codebase://"
  const StatsUri := "codebase://stats"
  const MethodNotFoundPrefix := "Method not found: "
  const NotFoundPrefix := "Resource not found: "
  const QueryRequired := "query parameter is required"
  const RepoNote := "Use search_code tool to find specific functions"
  const Methods: seq<string> := ["initialize", "tools/list", "tools/call", "resources/list", "resources/read"]

  // ---------------------------------------------------------------------------
  // Envelopes (section 5 of the JSON-RPC 2.0 specification)
  // ---------------------------------------------------------------------------

  function SuccessResponse(id: Value, result: Value): map<string, Value> {
    map["jsonrpc" := Str(JsonRpcVersion), "id" := id, "result" := result]
  }

  function ErrorResponse(id: Value, code: int, message: string): map<string, Value> {
    map["jsonrpc" := Str(JsonRpcVersion), "id" := id,
        "error" := Dict(map["code" := Int(code), "message" := Str(message)])]
  }

  /** A well-formed response: version 2.0, the request's id, and exactly one of `result` or `{code, message}` `error`. */
  predicate Envelope(r: map<string, Value>, id: Value) {
    && "jsonrpc" in r && r["jsonrpc"] == Str(JsonRpcVersion)
    && "id" in r && r["id"] == id
    && (("result" in r) != ("error" in r))
    && r.Keys == {"jsonrpc", "id", if "result" in r then "result" else "error"}
    && ("error" in r ==> r["error"].Dict? && r["error"].fields.Keys == {"code", "message"}
                         && r["error"].fields["code"].Int? && r["error"].fields["message"].Str?)
  }

  /** Both constructors build a well-formed envelope and nothing more. */
  lemma EnvelopeShapes(id: Value, result: Value, code: int, message: string)
    ensures Envelope(SuccessResponse(id, result), id) && SuccessResponse(id, result)["result"] == result
    ensures var e := ErrorResponse(id, code, message);
      Envelope(e, id) && e["error"].fields["code"] == Int(code) && e["error"].fields["message"] == Str(message)
  {
  }

  /** `str(e)` of the `AttributeError` raised by calling `.get` on a non-dictionary. */
  function NoGet(v: Value): string {
    "'" + TypeName(v) + "' object has no attribute 'get'"
  }

  /** `d.get(key, default)` on a value that must be a dictionary. */
  function GetFrom(d: Value, key: string, default: Value): (r: Result<Value, string>)
    ensures d.Dict? ==> r == Success(Get(d.fields, key, default))
    ensures !d.Dict? ==> r == Failure(NoGet(d))
  {
    if d.Dict? then Success(Get(d.fields, key, default)) else Failure(NoGet(d))
  }

  /** The `{"content": [{"type": "text", "text": ...}]}` wrapper of a tool result. */
  function TextContent(text: Value): Value {
    Dict(map["content" := List([Dict(map["type" := Str("text"), "text" := text])])])
  }

  // ---------------------------------------------------------------------------
  // initialize and tools/list
  // ---------------------------------------------------------------------------

  function InitializeResult(): Value {
    Dict(map[
      "protocolVersion" := Str(ProtocolVersion),
      "capabilities" := Dict(map["tools" := Dict(map[]), "resources" := Dict(map[])]),
      "serverInfo" := Dict(map["name" := Str(ServerName), "version" := Str(ServerVersion)])])
  }

  // The tools' descriptive texts.
  const SearchCodeDescription := "Search for code functions using semantic search. Returns relevant functions from the indexed codebase."
  const GetStatsDescription := "Get statistics about the indexed codebase (total functions, repositories, code types)"
  const QueryDescription := "Natural language or code search query (e.g., 'JWT authentication', 'database transaction handling')"
  const LimitDescription := "Maximum number of results to return (default: 5)"
  const CodeTypeDescription := "Filter by code type: handler, middleware, service, repository, model, utility, client, other"

  function Property(kind: string, description: string): map<string, Value> {
    map["type" := Str(kind), "description" := Str(description)]
  }

  function SearchSchema(): Value {
    Dict(map[
      "type" := Str("object"),
      "properties" := Dict(map[
        "query" := Dict(Property("string", QueryDescription)),
        "limit" := Dict(Property("integer", LimitDescription)["default" := Int(DefaultLimit)]),
        "code_type" := Dict(Property("string", CodeTypeDescription)["enum" := List([
          Str("handler"), Str("middleware"), Str("service"), Str("repository"),
          Str("model"), Str("utility"), Str("client"), Str("other")])])]),
      "required" := List([Str("query")])])
  }

  function Tool(name: string, description: string, schema: Value): Value {
    Dict(map["name" := Str(name), "description" := Str(description), "inputSchema" := schema])
  }

  function ToolsListResult(): Value {
    Dict(map["tools" := List([
      Tool("search_code", SearchCodeDescription, SearchSchema()),
      Tool("get_stats", GetStatsDescription, Dict(map["type" := Str("object"), "properties" := Dict(map[])]))])])
  }

  /** The two advertised tools are `search_code` and `get_stats`, in that order. */
  lemma ToolsListed()
    ensures var tools := ToolsListResult().fields["tools"];
      tools.List? && |tools.items| == 2 &&
      tools.items[0].fields["name"] == Str("search_code") &&
      tools.items[1].fields["name"] == Str("get_stats")
  {
  }

  // ---------------------------------------------------------------------------
  // Statistics as JSON
  // ---------------------------------------------------------------------------

  /** How `json.dumps` writes a dictionary key: strings as is, scalars as JSON literals. */
  function JsonKey(k: Value): string {
    match k
    case Str(s) => s
    case Int(i) => IntToString(i)
    case Bool(b) => if b then "true" else "false"
    case Null => "null"
    case _ => PyStr(k)
  }

  function TallyDict(t: VectorStore.Tally): map<string, Value> {
    if |t| == 0 then map[]
    else TallyDict(t[..|t| - 1])[JsonKey(t[|t| - 1].0) := Int(t[|t| - 1].1)]
  }

  function StatsValue(s: VectorStore.StoreStats): Value {
    Dict(map[
      "total_functions" := Int(s.totalFunctions),
      "repos" := Dict(TallyDict(s.repos)),
      "types" := Dict(TallyDict(s.types))])
  }

  /** `tool_get_stats`: the statistics, as indented JSON text. */
  function GetStatsResult(s: VectorStore.StoreStats): Value {
    TextContent(Dumped(StatsValue(s)))
  }

  // ---------------------------------------------------------------------------
  // resources/list and resources/read
  // ---------------------------------------------------------------------------

  function StatsResource(total: nat): Value {
    Dict(map[
      "uri" := Str(StatsUri),
      "name" := Str("Codebase Statistics"),
      "description" := Str("Statistics about indexed codebase (" + NatToString(total) + " functions)"),
      "mimeType" := Str("application/json")])
  }

  function RepoResource(repo: Value): Value {
    Dict(map[
      "uri" := Str(UriPrefix + PyStr(repo)),
      "name" := Str("Repository: " + PyStr(repo)),
      "description" := Str("Functions from " + PyStr(repo) + " repository"),
      "mimeType" := Str("application/json")])
  }

  /** The resource list: the statistics resource, then one resource per repository in the statistics, in their order. */
  function ResourceEntries(s: VectorStore.StoreStats): seq<Value> {
    var repos := VectorStore.Keys(s.repos);
    [StatsResource(s.totalFunctions)] + MapSeq(RepoResource, repos)
  }

  function ResourcesList(s: VectorStore.StoreStats): Value {
    Dict(map["resources" := List(ResourceEntries(s))])
  }

  /** The listed resources are the stats resource followed by exactly one `codebase://<repo>` per counted repository. */
  lemma ResourcesListed(s: VectorStore.StoreStats)
    ensures |ResourceEntries(s)| == 1 + |VectorStore.Keys(s.repos)|
    ensures ResourceEntries(s)[0].fields["uri"] == Str(StatsUri)
    ensures forall i :: 0 <= i < |VectorStore.Keys(s.repos)| ==>
      ResourceEntries(s)[i + 1].fields["uri"] == Str(UriPrefix + PyStr(VectorStore.Keys(s.repos)[i]))
  {
  }

  function ReadContents(uri: string, text: Value): Value {
    Dict(map["contents" := List([Dict(map["uri" := Str(uri), "mimeType" := Str("application/json"), "text" := text])])])
  }

  /** `handle_resources_read` given the statistics it would fetch. */
  function ResourcesRead(params: Value, s: VectorStore.StoreStats): Result<Value, string> {
    match GetFrom(params, "uri", Null)
    case Failure(e) => Failure(e)
    case Success(uri) =>
      if uri == Str(StatsUri) then Success(ReadContents(StatsUri, Dumped(StatsValue(s))))
      else if !uri.Str? then Failure("'" + TypeName(uri) + "' object has no attribute 'startswith'")
      else if StartsWith(uri.s, UriPrefix) && Str(ReplaceAll(uri.s, UriPrefix, "")) in VectorStore.Keys(s.repos) then
        var repoName := ReplaceAll(uri.s, UriPrefix, "");
        Success(ReadContents(uri.s, Dumped(Dict(map[
          "repo" := Str(repoName),
          "function_count" := Int(VectorStore.Lookup(s.repos, Str(repoName))),
          "note" := Str(RepoNote)]))))
      else Failure(NotFoundPrefix + uri.s)
  }

  /** Removing the prefix from `codebase://<repo>` gives back `<repo>` when the name does not itself contain the prefix. */
  lemma RepoOfUri(repo: string)
    requires !Contains(repo, UriPrefix)
    ensures ReplaceAll(UriPrefix + repo, UriPrefix, "") == repo
  {
    var uri := UriPrefix + repo;
    assert OccursAt(uri, UriPrefix, 0);
    ContainsFind(uri, UriPrefix);
    var i := FindFrom(uri, UriPrefix, 0).value;
    assert i == 0;
    assert uri[|UriPrefix|..] == repo;
    ContainsFind(repo, UriPrefix);
    assert SplitOn(uri, UriPrefix) == [""] + SplitOn(repo, UriPrefix);
    assert SplitOn(repo, UriPrefix) == [repo];
    assert Join([""] + [repo], "") == "" + "" + Join([repo], "");
  }

  /**
   * The statistics resource is always served; `codebase://<repo>` is served
   * exactly when `<repo>` is a counted repository; any other string URI
   * raises "Resource not found".
   */
  lemma ResourcesReadCases(repo: string, s: VectorStore.StoreStats)
    requires !Contains(repo, UriPrefix) && UriPrefix + repo != StatsUri
    ensures ResourcesRead(Dict(map["uri" := Str(StatsUri)]), s).Success?
    ensures ResourcesRead(Dict(map["uri" := Str(UriPrefix + repo)]), s).Success? <==> Str(repo) in VectorStore.Keys(s.repos)
    ensures Str(repo) !in VectorStore.Keys(s.repos) ==>
      ResourcesRead(Dict(map["uri" := Str(UriPrefix + repo)]), s) == Failure(NotFoundPrefix + (UriPrefix + repo))
  {
    RepoOfUri(repo);
    assert StartsWith(UriPrefix + repo, UriPrefix) by {
      assert (UriPrefix + repo)[..|UriPrefix|] == UriPrefix;
    }
  }

  /** A string URI outside the `codebase://` scheme is never served. */
  lemma ForeignUriNotFound(uri: string, s: VectorStore.StoreStats)
    requires !StartsWith(uri, UriPrefix)
    ensures ResourcesRead(Dict(map["uri" := Str(uri)]), s) == Failure(NotFoundPrefix + uri)
  {
    assert StatsUri[..|UriPrefix|] == UriPrefix;
    assert StartsWith(StatsUri, UriPrefix);
  }

  // ---------------------------------------------------------------------------
  // tools/call and search_code
  // ---------------------------------------------------------------------------

  /** The metadata keys a search result is read through, in the order the result dictionary reads them. */
  const ResultKeys: seq<string> := ["repo", "file", "function", "start_line", "end_line", "lines_of_code", "code_type", "has_docstring", "is_method"]

  /** `relevance_score`: one minus a truthy distance, else `None` (a distance of exactly zero gives `None`). */
  function Relevance(distance: Option<real>): Value {
    if distance.Some? && distance.value != 0.0 then Float(1.0 - distance.value) else Null
  }

  /** One entry of `formatted_results`, or the `KeyError` of the first missing metadata key. */
  function FormatHit(hit: VectorStore.SearchHit): Result<Value, string> {
    var meta := hit.metadata;
    match FirstMissing(meta, ResultKeys)
    case Some(key) => Failure(MissingKey(key))
    case None => Success(Dict(HitFields(hit)))
  }

  /** The fields of a formatted result, read from a metadata dictionary that has every key of `ResultKeys`. */
  function HitFields(hit: VectorStore.SearchHit): map<string, Value>
    requires forall key :: key in ResultKeys ==> key in hit.metadata
  {
    var meta := hit.metadata;
    map[
        "id" := Str(hit.id),
        "repo" := meta["repo"],
        "file" := meta["file"],
        "function" := meta["function"],
        "start_line" := meta["start_line"],
        "end_line" := meta["end_line"],
        "lines_of_code" := meta["lines_of_code"],
        "code_type" := meta["code_type"],
        "has_docstring" := meta["has_docstring"],
        "is_method" := meta["is_method"],
        "receiver" := Get(meta, "receiver", Str("")),
        "code_preview" := Str(Take(hit.content, PreviewLength)),
        "relevance_score" := Relevance(hit.distance)]
  }

  /** Formatting a hit raises exactly when one of `ResultKeys` is missing from its metadata. */
  lemma FormatHitFails(hit: VectorStore.SearchHit)
    ensures FormatHit(hit).Failure? <==> exists key :: key in ResultKeys && key !in hit.metadata
    ensures FormatHit(hit).Success? ==> FormatHit(hit) == Success(Dict(HitFields(hit)))
  {
  }

  /** A formatted result echoes the hit's id, previews the first 500 characters and defaults the receiver to "". */
  lemma HitFieldsFacts(hit: VectorStore.SearchHit)
    requires forall key :: key in ResultKeys ==> key in hit.metadata
    ensures HitFields(hit)["id"] == Str(hit.id)
    ensures HitFields(hit)["code_preview"] == Str(Take(hit.content, PreviewLength))
    ensures "receiver" !in hit.metadata ==> HitFields(hit)["receiver"] == Str("")
    ensures hit.distance.None? ==> HitFields(hit)["relevance_score"] == Null
  {
  }

  /**
   * A loop that applies `f` to each item in turn and stops at the first item
   * that raises: every result in order, or that first failure.
   */
  function MapAll<A, B>(f: A -> Result<B, string>, xs: seq<A>): Result<seq<B>, string> {
    if |xs| == 0 then Success([])
    else
      match MapAll(f, xs[..|xs| - 1])
      case Failure(e) => Failure(e)
      case Success(done) =>
        match f(xs[|xs| - 1])
        case Failure(e) => Failure(e)
        case Success(y) => Success(done + [y])
  }

  /** The first item that raises decides the outcome of the whole loop. */
  lemma {:induction false} MapAllStops<A, B>(f: A -> Result<B, string>, xs: seq<A>, j: nat)
    requires j < |xs| && MapAll(f, xs[..j]).Success? && f(xs[j]).Failure?
    ensures MapAll(f, xs) == Failure(f(xs[j]).error)
  {
    if j + 1 == |xs| {
      assert xs[..j] == xs[..|xs| - 1];
    } else {
      assert xs[..|xs| - 1][..j] == xs[..j];
      MapAllStops(f, xs[..|xs| - 1], j);
    }
  }

  /** When no item raises, one result per item, in order. */
  lemma {:induction false} MapAllFacts<A, B>(f: A -> Result<B, string>, xs: seq<A>)
    requires forall i :: 0 <= i < |xs| ==> f(xs[i]).Success?
    ensures MapAll(f, xs).Success?
    ensures |MapAll(f, xs).value| == |xs|
    ensures forall i :: 0 <= i < |xs| ==> MapAll(f, xs).value[i] == f(xs[i]).value
  {
    if |xs| > 0 {
      MapAllFacts(f, xs[..|xs| - 1]);
    }
  }

  /** The loop over search results: every result formatted, or the first failure. */
  function FormatAll(hits: seq<VectorStore.SearchHit>): Result<seq<Value>, string> {
    MapAll(FormatHit, hits)
  }

  /** The loop of `tool_search_code` that formats each search result in turn, stopping at the first that raises. */
  method FormatResults(hits: seq<VectorStore.SearchHit>) returns (result: Result<seq<Value>, string>)
    ensures result == FormatAll(hits)
  {
    var formatted: seq<Value> := [];
    var i := 0;
    while i < |hits|
      invariant 0 <= i <= |hits|
      invariant FormatAll(hits[..i]) == Success(formatted)
    {
      assert hits[..i + 1][..i] == hits[..i];
      var f := FormatHit(hits[i]);
      if f.Failure? {
        MapAllStops(FormatHit, hits, i);
        return Failure(f.error);
      }
      formatted := formatted + [f.value];
      i := i + 1;
    }
    assert hits[..|hits|] == hits;
    return Success(formatted);
  }

  type Searcher = VectorStore.Searcher

  /** The query text handed to the store: the string itself; another value by its `str()` text. */
  function QueryText(query: Value): string {
    if query.Str? then query.s else PyStr(query)
  }

  /** `{"code_type": code_type} if code_type else None`. */
  function CodeTypeFilter(codeType: Value): Option<map<string, Value>> {
    if Truthy(codeType) then Some(map["code_type" := codeType]) else None
  }

  function SearchPayload(query: Value, formatted: seq<Value>): Value {
    TextContent(Dumped(Dict(map["query" := query, "results_count" := Int(|formatted|), "results" := List(formatted)])))
  }

  /** `tool_search_code`, given the store's search. */
  function SearchCode(args: Value, search: Searcher): Result<Value, string> {
    if !args.Dict? then Failure(NoGet(args))
    else
      var query := Get(args.fields, "query", Null);
      var limit := Get(args.fields, "limit", Int(DefaultLimit));
      var codeType := Get(args.fields, "code_type", Null);
      if !Truthy(query) then Failure(QueryRequired)
      else
        match search(QueryText(query), limit, CodeTypeFilter(codeType))
        case Failure(e) => Failure(e)
        case Success(hits) =>
          match FormatAll(hits)
          case Failure(e) => Failure(e)
          case Success(formatted) => Success(SearchPayload(query, formatted))
  }

  /**
   * A missing or empty query raises; the limit defaults to 5; the store is
   * filtered on `code_type` only when one is given.
   */
  lemma SearchCodeArguments(args: map<string, Value>, search: Searcher)
    ensures !Truthy(Get(args, "query", Null)) ==> SearchCode(Dict(args), search) == Failure(QueryRequired)
    ensures "query" !in args ==> SearchCode(Dict(args), search).Failure?
    ensures CodeTypeFilter(Get(args, "code_type", Null)).Some? <==> "code_type" in args && Truthy(args["code_type"])
    ensures CodeTypeFilter(Get(args, "code_type", Null)).Some? ==>
      CodeTypeFilter(Get(args, "code_type", Null)).value == map["code_type" := args["code_type"]]
    ensures "limit" !in args ==> Get(args, "limit", Int(DefaultLimit)) == Int(5)
  {
  }

  /** A successful search reports as many results as the store returned. */
  lemma SearchCodeCounts(args: map<string, Value>, search: Searcher)
    requires Truthy(Get(args, "query", Null))
    requires var r := search(QueryText(Get(args, "query", Null)), Get(args, "limit", Int(DefaultLimit)), CodeTypeFilter(Get(args, "code_type", Null)));
      r.Success? && forall i :: 0 <= i < |r.value| ==> FormatHit(r.value[i]).Success?
    ensures SearchCode(Dict(args), search).Success?
    ensures var hits := search(QueryText(Get(args, "query", Null)), Get(args, "limit", Int(DefaultLimit)), CodeTypeFilter(Get(args, "code_type", Null))).value;
      SearchCode(Dict(args), search) == Success(SearchPayload(Get(args, "query", Null), FormatAll(hits).value)) &&
      |FormatAll(hits).value| == |hits|
  {
    var hits := search(QueryText(Get(args, "query", Null)), Get(args, "limit", Int(DefaultLimit)), CodeTypeFilter(Get(args, "code_type", Null))).value;
    MapAllFacts(FormatHit, hits);
  }

  /** `handle_tools_call`, given the store's search and statistics. */
  function ToolsCall(params: Value, search: Searcher, s: VectorStore.StoreStats): Result<Value, string> {
    if !params.Dict? then Failure(NoGet(params))
    else
      var name := Get(params.fields, "name", Null);
      var arguments := Get(params.fields, "arguments", Dict(map[]));
      if name == Str("search_code") then SearchCode(arguments, search)
      else if name == Str("get_stats") then Success(GetStatsResult(s))
      else Failure("Unknown tool: " + PyStr(name))
  }

  /** Only `search_code` and `get_stats` are tools; any other name raises. */
  lemma ToolDispatch(params: map<string, Value>, search: Searcher, s: VectorStore.StoreStats)
    ensures var name := Get(params, "name", Null);
      name != Str("search_code") && name != Str("get_stats") ==>
        ToolsCall(Dict(params), search, s) == Failure("Unknown tool: " + PyStr(name))
    ensures Get(params, "name", Null) == Str("get_stats") ==> ToolsCall(Dict(params), search, s) == Success(GetStatsResult(s))
  {
  }

  // ---------------------------------------------------------------------------
  // handle_request
  // ---------------------------------------------------------------------------

  /** The five request handlers. */
  datatype Handler = InitializeHandler | ToolsListHandler | ToolsCallHandler | ResourcesListHandler | ResourcesReadHandler

  /** The handler for a `method` field, if it names one of the five. */
  function Route(rpcMethod: Value): (r: Option<Handler>)
    ensures r.None? <==> !(rpcMethod.Str? && rpcMethod.s in Methods)
  {
    if rpcMethod == Str("initialize") then Some(InitializeHandler)
    else if rpcMethod == Str("tools/list") then Some(ToolsListHandler)
    else if rpcMethod == Str("tools/call") then Some(ToolsCallHandler)
    else if rpcMethod == Str("resources/list") then Some(ResourcesListHandler)
    else if rpcMethod == Str("resources/read") then Some(ResourcesReadHandler)
    else None
  }

  /** A handler's result or its exception text, given the store's search and statistics. */
  function Run(h: Handler, params: Value, search: Searcher, s: VectorStore.StoreStats): Result<Value, string> {
    match h
    case InitializeHandler => Success(InitializeResult())
    case ToolsListHandler => Success(ToolsListResult())
    case ToolsCallHandler => ToolsCall(params, search, s)
    case ResourcesListHandler => Success(ResourcesList(s))
    case ResourcesReadHandler => ResourcesRead(params, s)
  }

  /** `handle_request`: the reply to one decoded request dictionary. */
  function Respond(request: map<string, Value>, search: Searcher, s: VectorStore.StoreStats): map<string, Value> {
    var rpcMethod := Get(request, "method", Null);
    var params := Get(request, "params", Dict(map[]));
    var id := Get(request, "id", Null);
    match Route(rpcMethod)
    case None => ErrorResponse(id, MethodNotFound, MethodNotFoundPrefix + PyStr(rpcMethod))
    case Some(h) =>
      match Run(h, params, search, s)
      case Success(result) => SuccessResponse(id, result)
      case Failure(e) => ErrorResponse(id, InternalError, e)
  }

  /**
   * Every reply is a well-formed envelope echoing the request id; an unknown
   * method gets -32601 "Method not found: <method>", and a handler's
   * exception gets -32603 with the exception text.
   */
  lemma RespondFacts(request: map<string, Value>, search: Searcher, s: VectorStore.StoreStats)
    ensures Envelope(Respond(request, search, s), Get(request, "id", Null))
    ensures var rpcMethod := Get(request, "method", Null);
      !(rpcMethod.Str? && rpcMethod.s in Methods) ==>
        Respond(request, search, s) == ErrorResponse(Get(request, "id", Null), MethodNotFound, MethodNotFoundPrefix + PyStr(rpcMethod))
    ensures var h := Route(Get(request, "method", Null));
      h.Some? ==> var out := Run(h.value, Get(request, "params", Dict(map[])), search, s);
        Respond(request, search, s) ==
          if out.Success? then SuccessResponse(Get(request, "id", Null), out.value)
          else ErrorResponse(Get(request, "id", Null), InternalError, out.error)
  {
    var id := Get(request, "id", Null);
    var h := Route(Get(request, "method", Null));
    if h.Some? {
      var out := Run(h.value, Get(request, "params", Dict(map[])), search, s);
      if out.Success? {
        EnvelopeShapes(id, out.value, 0, "");
      } else {
        EnvelopeShapes(id, Null, InternalError, out.error);
      }
    } else {
      EnvelopeShapes(id, Null, MethodNotFound, MethodNotFoundPrefix + PyStr(Get(request, "method", Null)));
    }
  }

  // ---------------------------------------------------------------------------
  // The stdin loop's per-line decision
  // ---------------------------------------------------------------------------

  /** What one input line leads to: nothing, one printed reply, or the server stopping with an exception. */
  datatype LineOutcome = Skip | Reply(response: map<string, Value>) | Crash(message: string)

  /**
   * One line of `run`: a blank line is skipped, an undecodable one gets the
   * -32700 reply with a null id, a decoded dictionary gets `Respond`, and a
   * decoded non-dictionary makes `request.get` raise outside the handler's
   * `try`, which stops the server. `decode` is `json.loads`, `None` standing
   * for `JSONDecodeError`.
   */
  function LineDecision(line: string, decode: string -> Option<Value>, search: Searcher, s: VectorStore.StoreStats): LineOutcome {
    var text := Strip(line);
    if text == "" then Skip
    else
      match decode(text)
      case None => Reply(ErrorResponse(Null, ParseError, "Parse error"))
      case Some(Dict(request)) => Reply(Respond(request, search, s))
      case Some(other) => Crash(NoGet(other))
  }

  /** Blank lines print nothing; undecodable lines print the parse-error envelope with a null id. */
  lemma LineDecisionSkips(line: string, decode: string -> Option<Value>, search: Searcher, s: VectorStore.StoreStats)
    ensures Strip(line) == "" <==> LineDecision(line, decode, search, s) == Skip
    ensures Strip(line) != "" && decode(Strip(line)).None? ==>
      LineDecision(line, decode, search, s) == Reply(ErrorResponse(Null, ParseError, "Parse error"))
  {
  }

  /** Every reply is an envelope carrying the request's id, or a null id when the line did not decode. */
  lemma LineDecisionEnvelope(line: string, decode: string -> Option<Value>, search: Searcher, s: VectorStore.StoreStats)
    ensures LineDecision(line, decode, search, s).Reply? ==>
      Envelope(LineDecision(line, decode, search, s).response,
               if decode(Strip(line)).None? then Null else Get(decode(Strip(line)).value.fields, "id", Null))
  {
    var text := Strip(line);
    if text != "" {
      match decode(text)
      case None =>
      case Some(v) =>
        if v.Dict? {
          RespondFacts(v.fields, search, s);
        }
    }
  }

  // ---------------------------------------------------------------------------
  // The server object
  // ---------------------------------------------------------------------------

  class Server {
    const store: VectorStore.Store
    const provider: Embeddings.Provider
    const nearest: VectorStore.Nearest

    constructor(store: VectorStore.Store, provider: Embeddings.Provider, nearest: VectorStore.Nearest)
      ensures this.store == store && this.provider == provider && this.nearest == nearest
    {
      this.store := store;
      this.provider := provider;
      this.nearest := nearest;
    }

    /** The store's search on its current entries. */
    function Search(): Searcher
      reads this, store, store.collection, store.generator
    {
      store.SearchFunction(provider, nearest)
    }

    function Stats(): VectorStore.StoreStats
      reads this, store, store.collection
    {
      VectorStore.StatsOf(store.collection.entries)
    }

    /** `tool_search_code`: the arguments, the store's search, and the loop formatting each result. */
    method ToolSearchCode(args: Value) returns (result: Result<Value, string>)
      ensures result == SearchCode(args, Search())
    {
      if !args.Dict? {
        return Failure(NoGet(args));
      }
      var query := Get(args.fields, "query", Null);
      var limit := Get(args.fields, "limit", Int(DefaultLimit));
      var codeType := Get(args.fields, "code_type", Null);
      if !Truthy(query) {
        return Failure(QueryRequired);
      }
      var filter := if Truthy(codeType) then Some(map["code_type" := codeType]) else None;
      var hits := store.Search(QueryText(query), limit, filter, provider, nearest);
      if hits.Failure? {
        return Failure(hits.error);
      }
      var formatted := FormatResults(hits.value);
      if formatted.Failure? {
        return Failure(formatted.error);
      }
      return Success(SearchPayload(query, formatted.value));
    }

    /** `handle_tools_call`. */
    method HandleToolsCall(params: Value) returns (result: Result<Value, string>)
      ensures result == ToolsCall(params, Search(), Stats())
    {
      if !params.Dict? {
        return Failure(NoGet(params));
      }
      var name := Get(params.fields, "name", Null);
      var arguments := Get(params.fields, "arguments", Dict(map[]));
      if name == Str("search_code") {
        result := ToolSearchCode(arguments);
      } else if name == Str("get_stats") {
        var stats := store.GetStats();
        result := Success(GetStatsResult(stats));
      } else {
        result := Failure("Unknown tool: " + PyStr(name));
      }
    }

    /** `handle_resources_list`: the statistics resource, then one resource per repository, appended in a loop. */
    method HandleResourcesList() returns (result: Value)
      ensures result == ResourcesList(Stats())
    {
      var stats := store.GetStats();
      var resources := [StatsResource(stats.totalFunctions)];
      var repos := VectorStore.Keys(stats.repos);
      for k := 0 to |repos|
        invariant resources == [StatsResource(stats.totalFunctions)] + MapSeq(RepoResource, repos[..k])
      {
        MapSeqStep(RepoResource, repos, k);
        AppendAssociative([StatsResource(stats.totalFunctions)], MapSeq(RepoResource, repos[..k]), [RepoResource(repos[k])]);
        resources := resources + [RepoResource(repos[k])];
      }
      TakeAll(repos);
      return Dict(map["resources" := List(resources)]);
    }

    /** The selected handler's result, or the text of the exception it raised. */
    method RunHandler(handler: Handler, params: Value) returns (result: Result<Value, string>)
      ensures result == Run(handler, params, Search(), Stats())
    {
      match handler {
        case InitializeHandler => result := Success(InitializeResult());
        case ToolsListHandler => result := Success(ToolsListResult());
        case ToolsCallHandler => result := HandleToolsCall(params);
        case ResourcesListHandler =>
          var resources := HandleResourcesList();
          result := Success(resources);
        case ResourcesReadHandler =>
          var stats := store.GetStats();
          result := ResourcesRead(params, stats);
      }
    }

    /** `handle_request`: dispatch, then wrap the result or the exception in an envelope. */
    method HandleRequest(request: map<string, Value>) returns (response: map<string, Value>)
      ensures response == Respond(request, Search(), Stats())
    {
      var rpcMethod := Get(request, "method", Null);
      var params := Get(request, "params", Dict(map[]));
      var id := Get(request, "id", Null);
      var handler := Route(rpcMethod);
      if handler.None? {
        return ErrorResponse(id, MethodNotFound, MethodNotFoundPrefix + PyStr(rpcMethod));
      }
      var result := RunHandler(handler.value, params);
      match result {
        case Success(value) => response := SuccessResponse(id, value);
        case Failure(e) => response := ErrorResponse(id, InternalError, e);
      }
    }
  }
}
