/**
 * The command-line search (`search_cli.py`): the flag scan over the argument
 * vector, the display block of one result, and the run of `main` as the list
 * of texts it prints and the exit it ends with.
 */
module SearchCli {
  import opened Wrappers
  import opened Strings
  import opened Values
  import opened Sequences
  import VectorStore
  import Embeddings

  const RuleWidth := 70
  const PreviewLimit := 300
  const DefaultLimit := 5
  const LimitFlag := "--limit"
  const TypeFlag := "--type"

  // ---------------------------------------------------------------------------
  // format_result
  // ---------------------------------------------------------------------------

  /** A horizontal rule of 70 copies of `c`. */
  function Rule(c: char): string {
    Repeat(c, RuleWidth)
  }

  /** The heavy rule that opens and closes a block, and the light rule around the preview. */
  const HeavyRule := Rule('=')
  const LightRule := Rule('-')

  /** The line naming result number `index`. */
  function IdLine(index: int, id: string): string {
    "[" + IntToString(index) + "] " + id
  }

  /** The code preview: content longer than 300 characters is cut to 300 and marked with "...". */
  function Preview(content: string): string {
    if |content| > PreviewLimit then content[..PreviewLimit] + "..." else content
  }

  /** Short content is shown whole; long content shows its first 300 characters then "...". */
  lemma PreviewFacts(content: string)
    ensures |Preview(content)| == if |content| <= PreviewLimit then |content| else PreviewLimit + 3
    ensures StartsWith(Preview(content), Take(content, PreviewLimit))
    ensures |content| <= PreviewLimit ==> Preview(content) == content
    ensures |content| > PreviewLimit ==> EndsWith(Preview(content), "...")
  {
    var p := Preview(content);
    var t := Take(content, PreviewLimit);
    assert p[..|t|] == t;
    if |content| > PreviewLimit {
      assert p[|p| - 3..] == "...";
    }
  }

  /** The metadata keys every block reads, in the order it reads them. */
  const BlockKeys: seq<string> := ["repo", "file", "start_line", "end_line", "code_type"]

  const RepoLabel := "📁 Repo: "
  const FileLabel := "📄 File: "
  const TypeLabel := "🏷️  Type: "
  const MethodLabel := "🔧 Method: "
  const DocsLine := "📝 Has documentation: ✓"
  const LinesLabel := "📏 Lines: "
  const PreviewTitle := "Code Preview:"

  /** The six lines every block opens with: a rule, `[index] id`, a rule, the repository, the file span and the type. */
  function HeadLines(hit: VectorStore.SearchHit, index: int): seq<string>
    requires forall key :: key in BlockKeys ==> key in hit.metadata
  {
    var meta := hit.metadata;
    ["\n" + HeavyRule,
     IdLine(index, hit.id),
     HeavyRule,
     RepoLabel + PyStr(meta["repo"]),
     FileLabel + PyStr(meta["file"]) + ":" + PyStr(meta["start_line"]) + "-" + PyStr(meta["end_line"]),
     TypeLabel + PyStr(meta["code_type"])]
  }

  /** The Method line, present when `is_method` is truthy. */
  function MethodLines(meta: map<string, Value>): seq<string>
    requires Truthy(Get(meta, "is_method", Null)) ==> "receiver" in meta
  {
    if Truthy(Get(meta, "is_method", Null)) then [MethodLabel + PyStr(meta["receiver"])] else []
  }

  /** The documentation line, present when `has_docstring` is truthy. */
  function DocsLines(meta: map<string, Value>): seq<string> {
    if Truthy(Get(meta, "has_docstring", Null)) then [DocsLine] else []
  }

  /** The six lines every block closes with: the size, the preview between rules, and a closing rule. */
  function TailLines(hit: VectorStore.SearchHit): seq<string>
    requires "lines_of_code" in hit.metadata
  {
    [LinesLabel + PyStr(hit.metadata["lines_of_code"]),
     "\n" + LightRule,
     PreviewTitle,
     LightRule,
     Preview(hit.content),
     HeavyRule]
  }

  /** The lines of the block for result number `index`, or the `KeyError` of the first metadata key it lacks. */
  function BlockLines(hit: VectorStore.SearchHit, index: int): Result<seq<string>, string> {
    var meta := hit.metadata;
    if FirstMissing(meta, BlockKeys).Some? then Failure(MissingKey(FirstMissing(meta, BlockKeys).value))
    else if Truthy(Get(meta, "is_method", Null)) && "receiver" !in meta then Failure(MissingKey("receiver"))
    else if "lines_of_code" !in meta then Failure(MissingKey("lines_of_code"))
    else Success(HeadLines(hit, index) + MethodLines(meta) + DocsLines(meta) + TailLines(hit))
  }

  /** `format_result`: the block's lines joined by newlines. */
  function FormatResultText(hit: VectorStore.SearchHit, index: int): Result<string, string> {
    match BlockLines(hit, index)
    case Success(lines) => Success(Join(lines, "\n"))
    case Failure(e) => Failure(e)
  }

  function Bit(b: bool): nat { if b then 1 else 0 }

  /** A block raises exactly when a metadata key it reads is missing. */
  lemma BlockRaises(hit: VectorStore.SearchHit, index: int)
    ensures var meta := hit.metadata;
      BlockLines(hit, index).Failure? <==>
        (exists key :: key in BlockKeys && key !in meta) || "lines_of_code" !in meta ||
        (Truthy(Get(meta, "is_method", Null)) && "receiver" !in meta)
  {
  }

  /** A formatted block is its opening lines, the optional lines and its closing lines. */
  lemma BlockParts(hit: VectorStore.SearchHit, index: int)
    requires BlockLines(hit, index).Success?
    ensures "lines_of_code" in hit.metadata && forall key :: key in BlockKeys ==> key in hit.metadata
    ensures Truthy(Get(hit.metadata, "is_method", Null)) ==> "receiver" in hit.metadata
    ensures BlockLines(hit, index).value ==
      HeadLines(hit, index) + (MethodLines(hit.metadata) + DocsLines(hit.metadata)) + TailLines(hit)
  {
  }

  /** A block opens with a rule, `[index] id` and a rule, and closes with the preview and a rule. */
  lemma BlockShape(hit: VectorStore.SearchHit, index: int)
    requires BlockLines(hit, index).Success?
    ensures var meta := hit.metadata;
      var lines := BlockLines(hit, index).value;
      && |lines| >= 12
      && lines[0] == "\n" + HeavyRule && lines[1] == IdLine(index, hit.id) && lines[2] == HeavyRule
      && lines[|lines| - 2] == Preview(hit.content) && lines[|lines| - 1] == HeavyRule
  {
    BlockParts(hit, index);
    var head := HeadLines(hit, index);
    var middle := MethodLines(hit.metadata) + DocsLines(hit.metadata);
    var tail := TailLines(hit);
    var lines := head + middle + tail;
    assert lines[0] == head[0] && lines[1] == head[1] && lines[2] == head[2];
    assert lines[|lines| - 2] == tail[4] && lines[|lines| - 1] == tail[5];
  }

  /** Between them, a block has a Method line exactly when `is_method` is truthy and a documentation line exactly when `has_docstring` is truthy. */
  lemma BlockOptionalLines(hit: VectorStore.SearchHit, index: int)
    requires BlockLines(hit, index).Success?
    ensures var meta := hit.metadata;
      var lines := BlockLines(hit, index).value;
      var isMethod := Truthy(Get(meta, "is_method", Null));
      && (isMethod ==> lines[6] == MethodLabel + PyStr(meta["receiver"]))
      && (Truthy(Get(meta, "has_docstring", Null)) ==> lines[6 + Bit(isMethod)] == DocsLine)
      && |lines| == 12 + Bit(isMethod) + Bit(Truthy(Get(meta, "has_docstring", Null)))
  {
    BlockParts(hit, index);
    var meta := hit.metadata;
    var head := HeadLines(hit, index);
    var middle := MethodLines(meta) + DocsLines(meta);
    var lines := head + middle + TailLines(hit);
    if Truthy(Get(meta, "is_method", Null)) {
      assert lines[6] == middle[0] == MethodLines(meta)[0];
    }
    if Truthy(Get(meta, "has_docstring", Null)) {
      assert lines[6 + |MethodLines(meta)|] == middle[|MethodLines(meta)|] == DocsLine;
    }
  }

  /** `format_result`, building `lines` with the two conditional appends and the final extend. */
  method FormatResult(hit: VectorStore.SearchHit, index: int) returns (result: Result<string, string>)
    ensures result == FormatResultText(hit, index)
  {
    var meta := hit.metadata;
    var missing := FirstMissing(meta, BlockKeys);
    if missing.Some? {
      return Failure(MissingKey(missing.value));
    }
    var lines := HeadLines(hit, index);
    if Truthy(Get(meta, "is_method", Null)) {
      if "receiver" !in meta {
        return Failure(MissingKey("receiver"));
      }
      lines := lines + [MethodLabel + PyStr(meta["receiver"])];
    }
    assert lines == HeadLines(hit, index) + MethodLines(meta);
    if Truthy(Get(meta, "has_docstring", Null)) {
      lines := lines + [DocsLine];
    }
    assert lines == HeadLines(hit, index) + MethodLines(meta) + DocsLines(meta);
    if "lines_of_code" !in meta {
      return Failure(MissingKey("lines_of_code"));
    }
    lines := lines + TailLines(hit);
    assert BlockLines(hit, index) == Success(lines);
    return Success(Join(lines, "\n"));
  }

  // ---------------------------------------------------------------------------
  // Argument scanning
  // ---------------------------------------------------------------------------

  /** `argv.index(flag)`, or `None` when `flag not in argv`. */
  function FirstIndex(argv: seq<string>, flag: string): (r: Option<nat>)
    ensures r.None? <==> flag !in argv
    ensures r.Some? ==> r.value < |argv| && argv[r.value] == flag && flag !in argv[..r.value]
  {
    if |argv| == 0 then None
    else if argv[0] == flag then Some(0)
    else
      var rest := FirstIndex(argv[1..], flag);
      assert argv == [argv[0]] + argv[1..];
      if rest.None? then None
      else
        assert argv[..rest.value + 1] == [argv[0]] + argv[1..][..rest.value];
        Some(rest.value + 1)
  }

  /** What the argument vector asks for: the usage text, an exception while reading a flag's value, or a search. */
  datatype Invocation = Usage | BadArgument(message: string) | Query(query: string, limit: int, filterType: Option<string>)

  const IndexErrorMessage := "list index out of range"

  const NotAnIntegerPrefix := "invalid literal for int() with base 10: "

  /** `str(e)` of the `ValueError` that `int(s)` raises: the text's `repr`, cut at 200 characters (`%.200R`). */
  function NotAnInteger(s: string): (r: string)
    ensures StartsWith(r, NotAnIntegerPrefix) && |r| <= |NotAnIntegerPrefix| + 200
    ensures |Repr(s)| <= 200 ==> r == NotAnIntegerPrefix + Repr(s)
  {
    NotAnIntegerPrefix + Take(Repr(s), 200)
  }

  /** `--limit ten` reports the text in single quotes, `'ten'`. */
  lemma NotAnIntegerSingleQuoted()
    ensures NotAnInteger("ten") == NotAnIntegerPrefix + "'ten'"
  {
    ReprPlain("ten");
  }

  /** `--limit "a'b"` reports the text in double quotes, `"a'b"`, since it holds a single quote. */
  lemma NotAnIntegerDoubleQuoted()
    ensures NotAnInteger("a'b") == NotAnIntegerPrefix + "\"a'b\""
  {
    assert "a'b"[1] == '\'';
    ReprDoubleQuoted("a'b");
  }

  /** The word after the first `flag`, if the flag is present. */
  function FlagValue(argv: seq<string>, flag: string): Option<Result<string, string>> {
    match FirstIndex(argv, flag)
    case None => None
    case Some(i) => Some(if i + 1 < |argv| then Success(argv[i + 1]) else Failure(IndexErrorMessage))
  }

  /** `main`'s reading of `sys.argv`: the query is `argv[1]`, `--limit N` and `--type T` are read at their first occurrence. */
  function Arguments(argv: seq<string>): Invocation {
    if |argv| < 2 then Usage
    else
      match FlagValue(argv, LimitFlag)
      case Some(Failure(e)) => BadArgument(e)
      case Some(Success(text)) =>
        if ParseInt(text).None? then BadArgument(NotAnInteger(text))
        else WithType(argv, ParseInt(text).value)
      case None => WithType(argv, DefaultLimit)
  }

  function WithType(argv: seq<string>, limit: int): Invocation
    requires |argv| >= 2
  {
    match FlagValue(argv, TypeFlag)
    case Some(Failure(e)) => BadArgument(e)
    case Some(Success(t)) => Query(argv[1], limit, Some(t))
    case None => Query(argv[1], limit, None)
  }

  /** Without flags the limit is 5 and there is no filter; fewer than two words print the usage. */
  lemma ArgumentsDefaults(argv: seq<string>)
    ensures |argv| < 2 <==> Arguments(argv) == Usage
    ensures |argv| >= 2 && LimitFlag !in argv && TypeFlag !in argv ==> Arguments(argv) == Query(argv[1], DefaultLimit, None)
  {
  }

  /** The integer after the first `--limit` becomes the limit. */
  lemma LimitRead(argv: seq<string>, before: seq<string>, n: int, after: seq<string>)
    requires argv == before + [LimitFlag, IntToString(n)] + after
    requires |before| >= 2 && LimitFlag !in before && TypeFlag !in argv
    ensures Arguments(argv) == Query(argv[1], n, None)
  {
    ParseIntRoundTrip(n);
    FirstOccurrence(argv, before, LimitFlag);
  }

  /** The word after the first `--type` becomes the filter. */
  lemma TypeRead(argv: seq<string>, before: seq<string>, t: string, after: seq<string>)
    requires argv == before + [TypeFlag, t] + after
    requires |before| >= 2 && TypeFlag !in before && LimitFlag !in argv
    ensures Arguments(argv) == Query(argv[1], DefaultLimit, Some(t))
  {
    FirstOccurrence(argv, before, TypeFlag);
  }

  /** A `--limit` with nothing after it raises `IndexError`. */
  lemma LimitMissing(argv: seq<string>)
    requires |argv| >= 2 && argv[|argv| - 1] == LimitFlag && LimitFlag !in argv[..|argv| - 1]
    ensures Arguments(argv) == BadArgument(IndexErrorMessage)
  {
    FirstOccurrence(argv, argv[..|argv| - 1], LimitFlag);
  }

  lemma FirstOccurrence(argv: seq<string>, before: seq<string>, flag: string)
    requires |before| < |argv| && argv[..|before|] == before && argv[|before|] == flag && flag !in before
    ensures FirstIndex(argv, flag) == Some(|before|)
  {
    assert flag in argv;
  }

  /** `argv.index(flag)`, searching from the front. */
  method IndexOf(argv: seq<string>, flag: string) returns (index: Option<nat>)
    ensures index == FirstIndex(argv, flag)
  {
    var i := 0;
    while i < |argv|
      invariant 0 <= i <= |argv|
      invariant flag !in argv[..i]
    {
      if argv[i] == flag {
        FirstOccurrence(argv, argv[..i], flag);
        return Some(i);
      }
      assert argv[..i + 1] == argv[..i] + [argv[i]];
      i := i + 1;
    }
    assert argv[..i] == argv;
    return None;
  }

  /** The flag scan of `main`: `limit` starts at 5 and `filter_type` at `None`, and each present flag replaces its default. */
  method ParseArguments(argv: seq<string>) returns (invocation: Invocation)
    ensures invocation == Arguments(argv)
  {
    if |argv| < 2 {
      return Usage;
    }
    var query := argv[1];
    var limit := DefaultLimit;
    var filterType: Option<string> := None;
    var limitAt := IndexOf(argv, LimitFlag);
    if limitAt.Some? {
      if limitAt.value + 1 >= |argv| {
        return BadArgument(IndexErrorMessage);
      }
      var parsed := ParseInt(argv[limitAt.value + 1]);
      if parsed.None? {
        return BadArgument(NotAnInteger(argv[limitAt.value + 1]));
      }
      limit := parsed.value;
    }
    var typeAt := IndexOf(argv, TypeFlag);
    if typeAt.Some? {
      if typeAt.value + 1 >= |argv| {
        return BadArgument(IndexErrorMessage);
      }
      filterType := Some(argv[typeAt.value + 1]);
    }
    return Query(query, limit, filterType);
  }

  // ---------------------------------------------------------------------------
  // main
  // ---------------------------------------------------------------------------

  /** How `main` ends: with an exit code, or with an exception that escapes it. */
  datatype Exit = Code(code: int) | Raised(message: string)

  /** A run of `main`: the texts handed to `print`, in order, and how it ended. */
  datatype CliRun = CliRun(printed: seq<string>, exit: Exit)

  const UsageLine := "Usage: python search_cli.py <query> [--limit N] [--type TYPE]"
  const JwtExample := "  python search_cli.py \"JWT authentication\""
  const LimitExample := "  python search_cli.py \"database transaction\" --limit 10"
  const TypeExample := "  python search_cli.py \"error handling\" --type handler"
  const UsageLines: seq<string> := [UsageLine, "\nExamples:", JwtExample, LimitExample, TypeExample]
  const SearchingLabel := "\n🔍 Searching for: \""
  const FilteringLabel := "   Filtering by type: "
  const LimitLabel := "   Limit: "
  const DatabaseLabel := "   Database: "
  const FoundLabel := "✅ Found "
  const TypesLabel := "   Available types: "
  const EmptyDatabaseLine := "❌ Vector database is empty. Run 'python index_repos.py' first."
  const NoResultsLine := "❌ No results found."
  const TipLine := "\n💡 Tip: Use --type to filter by code type:"

  /** The summary line printed before the result blocks. */
  function FoundText(n: nat): string {
    FoundLabel + NatToString(n) + " results:\n"
  }

  /** `if filter_type:` — a type was given and is not empty. */
  predicate Filtering(filterType: Option<string>) {
    filterType.Some? && filterType.value != ""
  }

  function HeaderLines(query: string, limit: int, filterType: Option<string>, total: nat): seq<string> {
    [SearchingLabel + query + "\""]
    + (if Filtering(filterType) then [FilteringLabel + filterType.value] else [])
    + [LimitLabel + IntToString(limit), DatabaseLabel + NatToString(total) + " functions\n"]
  }

  /** `{"code_type": filter_type} if filter_type else None`. */
  function TypeFilter(filterType: Option<string>): Option<map<string, Value>> {
    if Filtering(filterType) then Some(map["code_type" := Str(filterType.value)]) else None
  }

  /** What the display loop prints for result number `index`, or the exception it raises. */
  type Formatter = (VectorStore.SearchHit, int) -> Result<string, string>

  /** The result blocks printed by the display loop, numbered from 1, up to the first that raises. */
  function Blocks(results: seq<VectorStore.SearchHit>, format: Formatter): (seq<string>, Option<string>) {
    if |results| == 0 then ([], None)
    else
      var (done, error) := Blocks(results[..|results| - 1], format);
      if error.Some? then (done, error)
      else
        match format(results[|results| - 1], |results|)
        case Success(text) => (done + [text], None)
        case Failure(e) => (done, Some(e))
  }

  /** A value `str.join` accepts: a `str`. */
  predicate IsText(v: Value) {
    v.Str? || v.Dumped?
  }

  /** The position of the first value that is not a `str`. */
  function FirstNonText(vs: seq<Value>): (r: Option<nat>)
    ensures r.None? <==> forall k :: 0 <= k < |vs| ==> IsText(vs[k])
    ensures r.Some? ==> r.value < |vs| && !IsText(vs[r.value]) && forall k :: 0 <= k < r.value ==> IsText(vs[k])
  {
    if |vs| == 0 then None
    else if !IsText(vs[0]) then Some(0)
    else match FirstNonText(vs[1..])
      case None => None
      case Some(i) => Some(i + 1)
  }

  /** `str(e)` of the `TypeError` that `str.join` raises on item `i` of type `name`. */
  function JoinTypeError(i: nat, name: string): string {
    "sequence item " + NatToString(i) + ": expected str instance, " + name + " found"
  }

  /**
   * The tip's list of the code types, `', '.join(stats['types'].keys())`: the
   * keys in order, separated by commas; the first key that is not a string
   * raises `TypeError`.
   */
  function TypesLine(stats: VectorStore.StoreStats): (r: Result<string, string>)
    ensures r.Success? <==> forall k :: 0 <= k < |VectorStore.Keys(stats.types)| ==> IsText(VectorStore.Keys(stats.types)[k])
    ensures r.Success? ==> r.value == TypesLabel + Join(MapSeq(PyStr, VectorStore.Keys(stats.types)), ", ")
    ensures r.Failure? ==> exists i :: (0 <= i < |VectorStore.Keys(stats.types)| &&
      (forall k :: 0 <= k < i ==> IsText(VectorStore.Keys(stats.types)[k])) && !IsText(VectorStore.Keys(stats.types)[i]) &&
      r.error == JoinTypeError(i, TypeName(VectorStore.Keys(stats.types)[i])))
  {
    var types := VectorStore.Keys(stats.types);
    match FirstNonText(types)
    case None => Success(TypesLabel + Join(MapSeq(PyStr, types), ", "))
    case Some(i) => Failure(JoinTypeError(i, TypeName(types[i])))
  }

  /** The lines after the blocks: the tip, then the list of types or the exception it raises. */
  function TipOutcome(stats: VectorStore.StoreStats): (seq<string>, Exit) {
    match TypesLine(stats)
    case Success(line) => ([TipLine, line], Code(0))
    case Failure(e) => ([TipLine], Raised(e))
  }

  /** `main`, given the statistics and the search of the store it opens. */
  function CliOutcome(argv: seq<string>, stats: VectorStore.StoreStats, search: VectorStore.Searcher): CliRun {
    match Arguments(argv)
    case Usage => CliRun(UsageLines, Code(1))
    case BadArgument(e) => CliRun([], Raised(e))
    case Query(query, limit, filterType) =>
      if stats.totalFunctions == 0 then CliRun([EmptyDatabaseLine], Code(1))
      else
        var header := HeaderLines(query, limit, filterType, stats.totalFunctions);
        match search(query, Int(limit), TypeFilter(filterType))
        case Failure(e) => CliRun(header, Raised(e))
        case Success(results) => AfterSearch(header, results, stats)
  }

  /** What `main` prints after the header once the search has answered. */
  function AfterSearch(header: seq<string>, results: seq<VectorStore.SearchHit>, stats: VectorStore.StoreStats): CliRun {
    if |results| == 0 then CliRun(header + [NoResultsLine], Code(0))
    else
      var (blocks, error) := Blocks(results, FormatResultText);
      if error.Some? then CliRun(header + [FoundText(|results|)] + blocks, Raised(error.value))
      else CliRun(header + [FoundText(|results|)] + blocks + TipOutcome(stats).0, TipOutcome(stats).1)
  }

  /** The header comes first; no results end with code 0; otherwise "Found N results" follows the header. */
  lemma AfterSearchHeader(header: seq<string>, results: seq<VectorStore.SearchHit>, stats: VectorStore.StoreStats)
    ensures AfterSearch(header, results, stats).printed[..|header|] == header
    ensures |results| == 0 ==> AfterSearch(header, results, stats) == CliRun(header + [NoResultsLine], Code(0))
    ensures |results| > 0 ==> (|AfterSearch(header, results, stats).printed| > |header| &&
      AfterSearch(header, results, stats).printed[|header|] == FoundText(|results|))
  {
    if |results| == 0 {
      assert (header + [NoResultsLine])[..|header|] == header;
    } else {
      var (blocks, error) := Blocks(results, FormatResultText);
      var front := header + [FoundText(|results|)];
      assert front[..|header|] == header && front[|header|] == FoundText(|results|);
      var tail := if error.Some? then blocks else blocks + TipOutcome(stats).0;
      PrefixKept(front, tail, |header|);
    }
  }

  /** An empty database ends with code 1 before any search, whatever the search would have answered. */
  lemma CliEmptyDatabase(argv: seq<string>, stats: VectorStore.StoreStats, search: VectorStore.Searcher, other: VectorStore.Searcher)
    requires Arguments(argv).Query? && stats.totalFunctions == 0
    ensures CliOutcome(argv, stats, search) == CliRun([EmptyDatabaseLine], Code(1))
    ensures CliOutcome(argv, stats, other) == CliOutcome(argv, stats, search)
  {
  }

  /**
   * After a successful search the header comes first; no results end with
   * code 0 after "No results found."; otherwise the line "Found N results"
   * follows the header, with N the number of results.
   */
  lemma CliSearchHeader(argv: seq<string>, stats: VectorStore.StoreStats, search: VectorStore.Searcher)
    requires Arguments(argv).Query? && stats.totalFunctions > 0
    requires var q := Arguments(argv); search(q.query, Int(q.limit), TypeFilter(q.filterType)).Success?
    ensures var q := Arguments(argv);
      var answer := search(q.query, Int(q.limit), TypeFilter(q.filterType));
      var header := HeaderLines(q.query, q.limit, q.filterType, stats.totalFunctions);
      var run := CliOutcome(argv, stats, search);
      run.printed[..|header|] == header &&
      (|answer.value| == 0 ==> run == CliRun(header + [NoResultsLine], Code(0))) &&
      (|answer.value| > 0 ==> |run.printed| > |header| && run.printed[|header|] == FoundText(|answer.value|))
  {
    var q := Arguments(argv);
    AfterSearchHeader(HeaderLines(q.query, q.limit, q.filterType, stats.totalFunctions),
                      search(q.query, Int(q.limit), TypeFilter(q.filterType)).value, stats);
  }

  /** Appending keeps a prefix and the item after it. */
  lemma PrefixKept(front: seq<string>, tail: seq<string>, n: nat)
    requires n < |front|
    ensures (front + tail)[..n] == front[..n] && (front + tail)[n] == front[n]
  {
  }

  /** With every block formatted, one block per result, in order, and no exception. */
  lemma {:induction false} BlocksComplete(results: seq<VectorStore.SearchHit>, format: Formatter)
    requires forall i :: 0 <= i < |results| ==> format(results[i], i + 1).Success?
    ensures Blocks(results, format).1 == None
    ensures |Blocks(results, format).0| == |results|
    ensures forall i :: 0 <= i < |results| ==> Blocks(results, format).0[i] == format(results[i], i + 1).value
  {
    if |results| > 0 {
      BlocksComplete(results[..|results| - 1], format);
    }
  }

  const DefaultChromaPath := "./data/chroma_db"

  /** `main` on a store: scan the flags, check the store is not empty, search and print each block. */
  method RunCli(argv: seq<string>, store: VectorStore.Store, provider: Embeddings.Provider, nearest: VectorStore.Nearest)
    returns (run: CliRun)
    ensures run == CliOutcome(argv, VectorStore.StatsOf(store.collection.entries), store.SearchFunction(provider, nearest))
  {
    var invocation := ParseArguments(argv);
    if invocation.Usage? {
      return CliRun(UsageLines, Code(1));
    }
    if invocation.BadArgument? {
      return CliRun([], Raised(invocation.message));
    }
    var stats := store.GetStats();
    if stats.totalFunctions == 0 {
      return CliRun([EmptyDatabaseLine], Code(1));
    }
    var printed := HeaderLines(invocation.query, invocation.limit, invocation.filterType, stats.totalFunctions);
    var results := store.Search(invocation.query, Int(invocation.limit), TypeFilter(invocation.filterType), provider, nearest);
    if results.Failure? {
      return CliRun(printed, Raised(results.error));
    }
    if |results.value| == 0 {
      return CliRun(printed + [NoResultsLine], Code(0));
    }
    printed := printed + [FoundText(|results.value|)];
    var blocks, error := PrintBlocks(results.value);
    printed := printed + blocks;
    if error.Some? {
      return CliRun(printed, Raised(error.value));
    }
    var types := TypesLine(stats);
    if types.Failure? {
      return CliRun(printed + [TipLine], Raised(types.error));
    }
    return CliRun(printed + [TipLine, types.value], Code(0));
  }

  /** The display loop `for i, result in enumerate(results, 1): print(format_result(result, i))`. */
  method PrintBlocks(results: seq<VectorStore.SearchHit>) returns (blocks: seq<string>, error: Option<string>)
    ensures (blocks, error) == Blocks(results, FormatResultText)
  {
    blocks := [];
    var i := 0;
    while i < |results|
      invariant 0 <= i <= |results|
      invariant Blocks(results[..i], FormatResultText) == (blocks, None)
    {
      assert results[..i + 1][..i] == results[..i];
      var text := FormatResult(results[i], i + 1);
      if text.Failure? {
        BlocksStop(results, FormatResultText, i);
        return blocks, Some(text.error);
      }
      blocks := blocks + [text.value];
      i := i + 1;
    }
    assert results[..i] == results;
    return blocks, None;
  }

  /** Once a block raises, the loop's outcome is fixed: later results are never shown. */
  lemma {:induction false} BlocksStop(results: seq<VectorStore.SearchHit>, format: Formatter, j: nat)
    requires j < |results| && Blocks(results[..j], format).1.None? && format(results[j], j + 1).Failure?
    ensures Blocks(results, format) == (Blocks(results[..j], format).0, Some(format(results[j], j + 1).error))
  {
    if j + 1 == |results| {
      assert results[..j] == results[..|results| - 1];
    } else {
      assert results[..|results| - 1][..j] == results[..j];
      BlocksStop(results[..|results| - 1], format, j);
    }
  }
}
