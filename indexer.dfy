/**
 * The production-code indexer (src/indexer.py): which `.go` files are indexed,
 * the code-type classifier, the record built for each extracted function, and
 * the statistics kept while crawling repositories. Directory listing and file
 * reading are inputs: a repository is the list of its `.go` files with the
 * outcome of reading each one, and the tree-sitter parser is a function from
 * file content to syntax tree.
 */
module Indexer {
  import opened Wrappers
  import opened Strings
  import opened Sequences
  import opened Values
  import GoParser

  // ---------------------------------------------------------------- file filter

  /** The outcome of `_should_index_file`: accepted, or the first rule that rejected the path. */
  datatype Rule = Accept | SkipTest | SkipVendor | SkipGenerated | SkipOther

  const VendorPatterns: seq<string> := ["/vendor/", "/mocks/", "/mock_", "/testdata/"]
  const GeneratedPatterns: seq<string> := [".pb.go", ".gen.go", "generated"]

  /** `Path(p).name`: the text after the last `/`. */
  function FileName(path: string): (r: string)
    ensures EndsWith(path, r) && '/' !in r
    ensures '/' in path ==> |r| < |path| && path[|path| - |r| - 1] == '/'
    ensures '/' !in path ==> r == path
  {
    match RFindChar(path, '/')
    case Some(i) => path[i + 1..]
    case None => path
  }

  /** `Path(p).suffix` of a file name: from its last dot, when that dot is neither first nor last. */
  function Suffix(name: string): string {
    match RFindChar(name, '.')
    case Some(i) => if 0 < i < |name| - 1 then name[i..] else ""
    case None => ""
  }

  /** Some pattern of the list occurs in `s`. */
  predicate AnyIn(patterns: seq<string>, s: string) {
    exists k :: 0 <= k < |patterns| && Contains(s, patterns[k])
  }

  predicate IsTestFile(path: string) {
    Contains(FileName(path), "_test.go")
  }

  predicate IsVendored(path: string) {
    AnyIn(VendorPatterns, path)
  }

  predicate IsGenerated(path: string) {
    exists k :: 0 <= k < |GeneratedPatterns| &&
      (Contains(Lower(FileName(path)), GeneratedPatterns[k]) || Contains(Lower(path), GeneratedPatterns[k]))
  }

  /** The rule chain of `_should_index_file`, checked in order: tests, vendored code, generated code, other suffixes. */
  function FilterRule(path: string): Rule {
    if IsTestFile(path) then SkipTest
    else if IsVendored(path) then SkipVendor
    else if IsGenerated(path) then SkipGenerated
    else if Suffix(FileName(path)) != ".go" then SkipOther
    else Accept
  }

  /** An accepted file is a `.go` file that is not a test, not vendored and not generated. */
  lemma AcceptedIsProductionGo(path: string)
    requires FilterRule(path) == Accept
    ensures EndsWith(FileName(path), ".go") && |FileName(path)| > 3
    ensures !Contains(FileName(path), "_test.go")
    ensures forall k :: 0 <= k < |VendorPatterns| ==> !Contains(path, VendorPatterns[k])
    ensures forall k :: 0 <= k < |GeneratedPatterns| ==> !Contains(Lower(path), GeneratedPatterns[k])
  {
    SuffixGo(FileName(path));
  }

  /** A name whose suffix is `.go` ends with `.go` and has a stem. */
  lemma SuffixGo(name: string)
    requires Suffix(name) == ".go"
    ensures EndsWith(name, ".go") && |name| > 3
  {
    var i := RFindChar(name, '.').value;
    assert name[i..] == ".go";
  }

  /** A test file is skipped as a test whatever its directory: the test rule comes first. */
  lemma TestRuleFirst(path: string)
    requires IsTestFile(path)
    ensures FilterRule(path) == SkipTest
  {
  }

  /**
   * The file-name half of the generated-code test is subsumed by the path
   * half: the name is the end of the path, so a pattern in the lower-cased
   * name is a pattern in the lower-cased path.
   */
  lemma {:induction false} GeneratedByPathAlone(path: string)
    ensures IsGenerated(path) <==> exists k :: 0 <= k < |GeneratedPatterns| && Contains(Lower(path), GeneratedPatterns[k])
  {
    var name := FileName(path);
    var off := |path| - |name|;
    assert path[off..] == name;
    assert Lower(path)[off..] == Lower(name);
    forall k | 0 <= k < |GeneratedPatterns| && Contains(Lower(name), GeneratedPatterns[k])
      ensures Contains(Lower(path), GeneratedPatterns[k])
    {
      ContainsInSuffix(Lower(path), off, GeneratedPatterns[k]);
    }
  }

  // ---------------------------------------------------------------- statistics

  /** The `self.stats` counters. */
  datatype Stats = Stats(
    totalFiles: nat,
    skippedTests: nat,
    skippedVendor: nat,
    skippedGenerated: nat,
    skippedOther: nat,
    indexedFiles: nat,
    totalFunctions: nat)

  const InitialStats := Stats(0, 0, 0, 0, 0, 0, 0)

  function Skipped(s: Stats): nat {
    s.skippedTests + s.skippedVendor + s.skippedGenerated + s.skippedOther
  }

  /** The counter update of one `_should_index_file` call deciding `rule`. */
  function Bump(s: Stats, rule: Rule): Stats {
    match rule
    case Accept => s
    case SkipTest => s.(skippedTests := s.skippedTests + 1)
    case SkipVendor => s.(skippedVendor := s.skippedVendor + 1)
    case SkipGenerated => s.(skippedGenerated := s.skippedGenerated + 1)
    case SkipOther => s.(skippedOther := s.skippedOther + 1)
  }

  /** Exactly one skip counter moves on a rejection, none on acceptance, and nothing else changes. */
  lemma BumpExactlyOne(s: Stats, rule: Rule)
    ensures Skipped(Bump(s, rule)) == Skipped(s) + (if rule == Accept then 0 else 1)
    ensures Bump(s, rule).totalFiles == s.totalFiles && Bump(s, rule).indexedFiles == s.indexedFiles
    ensures Bump(s, rule).totalFunctions == s.totalFunctions
    ensures rule != SkipTest ==> Bump(s, rule).skippedTests == s.skippedTests
    ensures rule != SkipVendor ==> Bump(s, rule).skippedVendor == s.skippedVendor
    ensures rule != SkipGenerated ==> Bump(s, rule).skippedGenerated == s.skippedGenerated
    ensures rule != SkipOther ==> Bump(s, rule).skippedOther == s.skippedOther
  {
  }

  /** A repository's `.go` file: its full path, its path relative to the repository, and the outcome of reading it. */
  datatype GoFile = GoFile(path: string, relPath: string, read: ReadOutcome)

  /** `read_text(encoding='utf-8')`: the content, a decoding or permission error (caught), or another error (raised). */
  datatype ReadOutcome = Read(content: string) | DecodeOrPermissionError | OtherError

  /** The counters after the filter has judged each file in turn. */
  function FilterPass(s: Stats, files: seq<GoFile>): Stats {
    if |files| == 0 then s
    else Bump(FilterPass(s, files[..|files| - 1]), FilterRule(files[|files| - 1].path))
  }

  /** The files the filter accepts, in order. */
  function Production(files: seq<GoFile>): seq<GoFile> {
    Filter(Accepted, files)
  }

  /** The file passes the production filter. */
  predicate Accepted(f: GoFile) {
    FilterRule(f.path) == Accept
  }

  /** The production files are accepted files of the input, and an accepted file is never dropped. */
  lemma ProductionAccepted(files: seq<GoFile>)
    ensures |Production(files)| <= |files|
    ensures forall k :: 0 <= k < |Production(files)| ==> FilterRule(Production(files)[k].path) == Accept
    ensures forall k :: 0 <= k < |Production(files)| ==> Production(files)[k] in files
    ensures forall f :: f in files && FilterRule(f.path) == Accept ==> f in Production(files)
  {
    FilterFacts(Accepted, files);
  }

  /** The four skip counters. */
  function Skips(s: Stats): (nat, nat, nat, nat) {
    (s.skippedTests, s.skippedVendor, s.skippedGenerated, s.skippedOther)
  }

  /** The filter's effect on the skip counters depends on those counters alone. */
  lemma {:induction false} FilterPassSkipsOnly(s: Stats, t: Stats, files: seq<GoFile>)
    requires Skips(s) == Skips(t)
    ensures Skips(FilterPass(s, files)) == Skips(FilterPass(t, files))
  {
    if |files| > 0 {
      var init := files[..|files| - 1];
      FilterPassSkipsOnly(s, t, init);
      BumpSkipsOnly(FilterPass(s, init), FilterPass(t, init), FilterRule(files[|files| - 1].path));
    }
  }

  lemma BumpSkipsOnly(a: Stats, b: Stats, rule: Rule)
    requires Skips(a) == Skips(b)
    ensures Skips(Bump(a, rule)) == Skips(Bump(b, rule))
  {
  }

  /** Every judged file is either accepted or counted under exactly one skip counter. */
  lemma {:induction false} FilterPassAccounts(s: Stats, files: seq<GoFile>)
    ensures Skipped(FilterPass(s, files)) + |Production(files)| == Skipped(s) + |files|
    ensures FilterPass(s, files).totalFiles == s.totalFiles
    ensures FilterPass(s, files).indexedFiles == s.indexedFiles
    ensures FilterPass(s, files).totalFunctions == s.totalFunctions
  {
    if |files| > 0 {
      var init := files[..|files| - 1];
      FilterPassAccounts(s, init);
      BumpExactlyOne(FilterPass(s, init), FilterRule(files[|files| - 1].path));
    }
  }

  // ---------------------------------------------------------------- records

  /** An indexed function: its id, the text that is embedded, and its metadata. */
  datatype IndexedFunction = IndexedFunction(id: string, content: string, metadata: Metadata)

  /** The metadata record of `_create_indexed_function`, one field per dictionary key. */
  datatype Metadata = Metadata(
    repo: string,
    file: string,
    functionName: string,
    startLine: int,
    endLine: int,
    linesOfCode: int,
    hasDocstring: bool,
    isMethod: bool,
    receiver: string,
    codeType: string)

  /** The metadata as the dictionary handed to Chroma. */
  function AsDict(m: Metadata): map<string, Value> {
    map[
      "repo" := Str(m.repo),
      "file" := Str(m.file),
      "function" := Str(m.functionName),
      "start_line" := Int(m.startLine),
      "end_line" := Int(m.endLine),
      "lines_of_code" := Int(m.linesOfCode),
      "has_docstring" := Bool(m.hasDocstring),
      "is_method" := Bool(m.isMethod),
      "receiver" := Str(m.receiver),
      "code_type" := Str(m.codeType)]
  }

  const MetadataKeys: set<string> := {
    "repo", "file", "function", "start_line", "end_line", "lines_of_code",
    "has_docstring", "is_method", "receiver", "code_type"}

  const MaxBody := 500

  /** Python truthiness of an optional string. */
  predicate Present(o: Option<string>) {
    o.Some? && o.value != ""
  }

  /** The pieces `_create_indexed_function` joins: the docstring when non-empty, the signature, the body cut to 500 characters. */
  function ContentParts(f: GoParser.GoFunction): seq<string> {
    (if Present(f.docstring) then [f.docstring.value] else []) + [f.signature, Take(f.body, MaxBody)]
  }

  /** The text that is embedded, `"\n".join(content_parts)`. */
  function EmbeddedText(f: GoParser.GoFunction): string {
    Join(ContentParts(f), "\n")
  }

  /** The embedded text is the docstring line (when non-empty), the signature line, then the body preview. */
  lemma EmbeddedTextLayout(f: GoParser.GoFunction)
    ensures EmbeddedText(f) == (if Present(f.docstring) then f.docstring.value + "\n" else "")
                               + f.signature + "\n" + Take(f.body, MaxBody)
  {
    var tail := [f.signature, Take(f.body, MaxBody)];
    JoinCons(f.signature, [Take(f.body, MaxBody)], "\n");
    assert [f.signature] + [Take(f.body, MaxBody)] == tail;
    if Present(f.docstring) {
      JoinCons(f.docstring.value, tail, "\n");
    } else {
      assert ContentParts(f) == tail;
    }
  }

  /** `_create_indexed_function`: the id, the embedded text and the ten metadata entries of one function. */
  function CreateIndexedFunction(f: GoParser.GoFunction, repoName: string, relPath: string): IndexedFunction {
    IndexedFunction(
      repoName + "/" + relPath + ":" + f.name,
      EmbeddedText(f),
      Metadata(
        repoName, relPath, f.name, f.startLine, f.endLine, f.endLine - f.startLine + 1,
        f.docstring.Some?, f.receiver.Some?, if Present(f.receiver) then f.receiver.value else "",
        DetectCodeType(relPath)))
  }

  /** The dictionary has exactly the ten keys, and no null value (Chroma refuses nulls). */
  lemma AsDictKeys(m: Metadata)
    ensures AsDict(m).Keys == MetadataKeys
    ensures forall k :: k in AsDict(m) ==> AsDict(m)[k] != Null
  {
  }

  /** Each key of the dictionary holds its field. */
  lemma AsDictFields(m: Metadata)
    ensures AsDict(m)["lines_of_code"] == Int(m.linesOfCode)
    ensures AsDict(m)["has_docstring"] == Bool(m.hasDocstring) && AsDict(m)["is_method"] == Bool(m.isMethod)
    ensures AsDict(m)["receiver"] == Str(m.receiver) && AsDict(m)["code_type"] == Str(m.codeType)
    ensures AsDict(m)["repo"] == Str(m.repo) && AsDict(m)["file"] == Str(m.file)
  {
  }

  /**
   * The metadata of a record: its line count is derived from the line span,
   * the two flags say whether a docstring and a receiver exist, and a missing
   * or empty receiver is stored as the empty string.
   */
  lemma MetadataFacts(f: GoParser.GoFunction, repoName: string, relPath: string)
    ensures var m := CreateIndexedFunction(f, repoName, relPath).metadata;
      && m.repo == repoName && m.file == relPath && m.functionName == f.name
      && m.startLine == f.startLine && m.endLine == f.endLine
      && m.linesOfCode == m.endLine - m.startLine + 1
      && (m.hasDocstring <==> f.docstring.Some?)
      && (m.isMethod <==> f.receiver.Some?)
      && (m.receiver == "" <==> !Present(f.receiver))
      && (Present(f.receiver) ==> m.receiver == f.receiver.value)
      && m.codeType == DetectCodeType(relPath)
  {
  }

  /**
   * The id ends with the function name after its last `:` (a Go identifier has
   * no colon), and starts with the repository name and a slash.
   */
  lemma IdRecoversName(f: GoParser.GoFunction, repoName: string, relPath: string)
    requires ':' !in f.name
    ensures var id := CreateIndexedFunction(f, repoName, relPath).id;
            RFindChar(id, ':') == Some(|id| - |f.name| - 1) && id[|id| - |f.name|..] == f.name
            && StartsWith(id, repoName + "/")
  {
    var id := CreateIndexedFunction(f, repoName, relPath).id;
    var head := repoName + "/" + relPath + ":";
    assert id == head + f.name;
    LastColonName(head, f.name);
    PrefixStartsWith(repoName + "/", relPath + ":" + f.name);
    assert id == (repoName + "/") + (relPath + ":" + f.name);
  }

  /** After a head ending in `:`, a name without `:` is what follows the last `:`. */
  lemma LastColonName(head: string, name: string)
    requires |head| > 0 && head[|head| - 1] == ':' && ':' !in name
    ensures RFindChar(head + name, ':') == Some(|head| - 1)
    ensures (head + name)[|head|..] == name
  {
    var id := head + name;
    assert id[|head| - 1] == ':';
    forall j | |head| <= j < |id|
      ensures id[j] != ':'
    {
      assert id[j] == name[j - |head|];
    }
  }

  lemma PrefixStartsWith(p: string, rest: string)
    ensures StartsWith(p + rest, p)
  {
    assert (p + rest)[..|p|] == p;
  }

  /** Ids are not unique: two same-named functions of one file get the same id. */
  lemma IdsCollide(f: GoParser.GoFunction, g: GoParser.GoFunction, repoName: string, relPath: string)
    requires f.name == g.name
    ensures CreateIndexedFunction(f, repoName, relPath).id == CreateIndexedFunction(g, repoName, relPath).id
  {
  }

  /** The embedded text ends with the body preview: a prefix of the body, at most 500 characters long. */
  lemma EmbeddedBodyPreview(f: GoParser.GoFunction, repoName: string, relPath: string)
    ensures var c := CreateIndexedFunction(f, repoName, relPath).content;
            var p := Take(f.body, MaxBody);
            EndsWith(c, "\n" + p) && |p| == Min(MaxBody, |f.body|) && p == f.body[..|p|]
  {
    var c := CreateIndexedFunction(f, repoName, relPath).content;
    var p := Take(f.body, MaxBody);
    EmbeddedTextLayout(f);
    var head := (if Present(f.docstring) then f.docstring.value + "\n" else "") + f.signature;
    assert c == head + ("\n" + p);
    assert c[|c| - |"\n" + p|..] == "\n" + p;
  }

  // ---------------------------------------------------------------- code types

  const CodeTypes: set<string> := {"handler", "middleware", "service", "repository", "model", "client", "utility", "other"}

  /** The classifier as a table: row `i` holds keywords and the category they select, highest priority first. */
  function RuleKeywords(i: nat): seq<string> {
    match i
    case 0 => ["handler"]
    case 1 => ["middleware"]
    case 2 => ["service"]
    case 3 => ["repository", "repo.go"]
    case 4 => ["model", "entity"]
    case 5 => ["client"]
    case 6 => ["util", "helper"]
    case _ => []
  }

  function RuleCategory(i: nat): string {
    match i
    case 0 => "handler"
    case 1 => "middleware"
    case 2 => "service"
    case 3 => "repository"
    case 4 => "model"
    case 5 => "client"
    case 6 => "utility"
    case _ => "other"
  }

  const RuleCount := 7

  /** The category of the first row from `i` on one of whose keywords occurs in `s`, else `other`. */
  function FirstMatchingRule(i: nat, s: string): string
    decreases RuleCount - i
  {
    if i >= RuleCount then "other"
    else if AnyIn(RuleKeywords(i), s) then RuleCategory(i)
    else FirstMatchingRule(i + 1, s)
  }

  /** `_detect_code_type`: the first keyword match on the lower-cased path, in fixed priority order. */
  function DetectCodeType(filePath: string): string {
    var p := Lower(filePath);
    if Contains(p, "handler") then "handler"
    else if Contains(p, "middleware") then "middleware"
    else if Contains(p, "service") then "service"
    else if Contains(p, "repository") || Contains(p, "repo.go") then "repository"
    else if Contains(p, "model") || Contains(p, "entity") then "model"
    else if Contains(p, "client") then "client"
    else if Contains(p, "util") || Contains(p, "helper") then "utility"
    else "other"
  }

  /** The classifier always answers one of the eight categories. */
  lemma CodeTypeInRange(filePath: string)
    ensures DetectCodeType(filePath) in CodeTypes
  {
  }

  /** The if-chain is the priority table read top to bottom. */
  lemma DetectMatchesTable(filePath: string)
    ensures DetectCodeType(filePath) == FirstMatchingRule(0, Lower(filePath))
  {
    var p := Lower(filePath);
    AnyInSingle("handler", p);
    AnyInSingle("middleware", p);
    AnyInSingle("service", p);
    AnyInPair("repository", "repo.go", p);
    AnyInPair("model", "entity", p);
    AnyInSingle("client", p);
    AnyInPair("util", "helper", p);
    assert FirstMatchingRule(6, p) == if Contains(p, "util") || Contains(p, "helper") then "utility" else "other";
    assert FirstMatchingRule(4, p) == if Contains(p, "model") || Contains(p, "entity") then "model"
                                      else FirstMatchingRule(5, p);
    assert FirstMatchingRule(2, p) == if Contains(p, "service") then "service" else FirstMatchingRule(3, p);
  }

  lemma AnyInSingle(a: string, s: string)
    ensures AnyIn([a], s) <==> Contains(s, a)
  {
    if Contains(s, a) {
      assert [a][0] == a;
    }
  }

  lemma AnyInPair(a: string, b: string, s: string)
    ensures AnyIn([a, b], s) <==> Contains(s, a) || Contains(s, b)
  {
    if Contains(s, a) {
      assert [a, b][0] == a;
    }
    if Contains(s, b) {
      assert [a, b][1] == b;
    }
  }

  /** Classification ignores letter case. */
  lemma CodeTypeCaseInsensitive(p: string, q: string)
    requires Lower(p) == Lower(q)
    ensures DetectCodeType(p) == DetectCodeType(q)
  {
  }

  /** Priority: a path mentioning a handler is a handler whatever else it mentions. */
  lemma HandlerWins(p: string)
    requires Contains(Lower(p), "handler")
    ensures DetectCodeType(p) == "handler"
  {
  }

  /** `other` exactly when no keyword of any row from `i` on occurs in the text. */
  lemma {:induction false} OtherMeansNoKeyword(i: nat, s: string)
    ensures FirstMatchingRule(i, s) == "other" <==> forall k :: i <= k < RuleCount ==> !AnyIn(RuleKeywords(k), s)
    decreases RuleCount - i
  {
    if i < RuleCount {
      OtherMeansNoKeyword(i + 1, s);
    }
  }

  // ---------------------------------------------------------------- save_index preview

  const PreviewLength := 150

  /** One entry of `save_index`: the id, the content cut to 150 characters plus `...` when longer, and the metadata. */
  function PreviewEntry(f: IndexedFunction): (r: map<string, Value>)
    ensures r.Keys == {"id", "content_preview", "metadata"}
    ensures r["id"] == Str(f.id) && r["metadata"] == Dict(AsDict(f.metadata))
    ensures |f.content| <= PreviewLength ==> r["content_preview"] == Str(f.content)
    ensures |f.content| > PreviewLength ==> r["content_preview"] == Str(f.content[..PreviewLength] + "...")
  {
    map["id" := Str(f.id), "content_preview" := Str(Ellipsized(f.content, PreviewLength)), "metadata" := Dict(AsDict(f.metadata))]
  }

  // ---------------------------------------------------------------- the crawl

  /** The records of a file's extracted functions, in extraction order. */
  function Records(fs: seq<GoParser.GoFunction>, repoName: string, relPath: string): (r: seq<IndexedFunction>)
    ensures |r| == |fs|
    ensures forall k :: 0 <= k < |fs| ==> r[k] == CreateIndexedFunction(fs[k], repoName, relPath)
  {
    if |fs| == 0 then []
    else Records(fs[..|fs| - 1], repoName, relPath) + [CreateIndexedFunction(fs[|fs| - 1], repoName, relPath)]
  }

  /** What `_index_file` returns for a file: nothing when it cannot be read, else one record per extracted function. */
  function FileRecords(file: GoFile, repoName: string, parse: string -> GoParser.Node): seq<IndexedFunction> {
    match file.read
    case Read(content) => Records(GoParser.Extracted(parse(content), content, file.path), repoName, file.relPath)
    case _ => []
  }

  /** The records of a list of files, concatenated in order. */
  function RepoRecords(files: seq<GoFile>, repoName: string, parse: string -> GoParser.Node): seq<IndexedFunction> {
    if |files| == 0 then []
    else RepoRecords(files[..|files| - 1], repoName, parse) + FileRecords(files[|files| - 1], repoName, parse)
  }

  /** A repository directory as `iterdir` lists it, with the `.go` files `rglob` finds under it. */
  datatype RepoDir = RepoDir(name: string, isDir: bool, files: seq<GoFile>)

  /** The directories `index_all_repos` crawls: directories whose names do not start with a dot. */
  function Crawled(entries: seq<RepoDir>): (r: seq<RepoDir>)
    ensures forall k :: 0 <= k < |r| ==> r[k].isDir && !StartsWith(r[k].name, ".")
    ensures |r| <= |entries|
  {
    FilterFacts(IsCrawled, entries);
    Filter(IsCrawled, entries)
  }

  /** A directory entry `index_all_repos` descends into. */
  predicate IsCrawled(d: RepoDir) {
    d.isDir && !StartsWith(d.name, ".")
  }

  /**
   * Every listed directory without a leading dot is crawled, as often as it is listed
   * and nothing else is; and the crawl of two listings one after the other is the crawl
   * of the first followed by that of the second, so the listing order is kept.
   */
  lemma CrawledFacts(entries: seq<RepoDir>, more: seq<RepoDir>)
    ensures forall d :: d in entries && d.isDir && !StartsWith(d.name, ".") ==> d in Crawled(entries)
    ensures forall d :: multiset(Crawled(entries))[d] == if d.isDir && !StartsWith(d.name, ".") then multiset(entries)[d] else 0
    ensures Crawled(entries + more) == Crawled(entries) + Crawled(more)
  {
    FilterFacts(IsCrawled, entries);
    FilterMultiset(IsCrawled, entries);
    FilterConcat(IsCrawled, entries, more);
  }

  function AllRecords(repos: seq<RepoDir>, parse: string -> GoParser.Node): seq<IndexedFunction> {
    if |repos| == 0 then []
    else AllRecords(repos[..|repos| - 1], parse) + RepoRecords(Production(repos[|repos| - 1].files), repos[|repos| - 1].name, parse)
  }

  function FilesFound(repos: seq<RepoDir>): nat {
    if |repos| == 0 then 0 else FilesFound(repos[..|repos| - 1]) + |repos[|repos| - 1].files|
  }

  /** The number of production files over all repositories. */
  function ProductionFound(repos: seq<RepoDir>): nat {
    if |repos| == 0 then 0 else ProductionFound(repos[..|repos| - 1]) + |Production(repos[|repos| - 1].files)|
  }

  /** The `.go` files of all repositories, one repository after the other. */
  function AllFiles(repos: seq<RepoDir>): seq<GoFile> {
    if |repos| == 0 then [] else AllFiles(repos[..|repos| - 1]) + repos[|repos| - 1].files
  }

  /** Judging two lists of files in turn is judging their concatenation. */
  lemma {:induction false} FilterPassConcat(s: Stats, a: seq<GoFile>, b: seq<GoFile>)
    ensures FilterPass(s, a + b) == FilterPass(FilterPass(s, a), b)
    decreases |b|
  {
    if |b| > 0 {
      var init := b[..|b| - 1];
      assert (a + b)[..|a + b| - 1] == a + init && (a + b)[|a + b| - 1] == b[|b| - 1];
      FilterPassConcat(s, a, init);
    } else {
      assert a + b == a;
    }
  }

  lemma FilterStep(s: Stats, files: seq<GoFile>, i: nat)
    requires i < |files|
    ensures Production(files[..i + 1])
            == Production(files[..i]) + (if FilterRule(files[i].path) == Accept then [files[i]] else [])
    ensures FilterPass(s, files[..i + 1]) == Bump(FilterPass(s, files[..i]), FilterRule(files[i].path))
  {
    assert files[..i + 1][..i] == files[..i];
  }

  lemma RecordsStep(fs: seq<GoParser.GoFunction>, i: nat, repoName: string, relPath: string)
    requires i < |fs|
    ensures Records(fs[..i + 1], repoName, relPath) == Records(fs[..i], repoName, relPath) + [CreateIndexedFunction(fs[i], repoName, relPath)]
  {
    assert fs[..i + 1][..i] == fs[..i];
  }

  lemma RepoRecordsStep(files: seq<GoFile>, j: nat, repoName: string, parse: string -> GoParser.Node)
    requires j < |files|
    ensures RepoRecords(files[..j + 1], repoName, parse)
            == RepoRecords(files[..j], repoName, parse) + FileRecords(files[j], repoName, parse)
  {
    assert files[..j + 1][..j] == files[..j];
  }

  lemma AllRecordsStep(repos: seq<RepoDir>, i: nat, parse: string -> GoParser.Node)
    requires i < |repos|
    ensures AllRecords(repos[..i + 1], parse)
            == AllRecords(repos[..i], parse) + RepoRecords(Production(repos[i].files), repos[i].name, parse)
    ensures FilesFound(repos[..i + 1]) == FilesFound(repos[..i]) + |repos[i].files|
    ensures ProductionFound(repos[..i + 1]) == ProductionFound(repos[..i]) + |Production(repos[i].files)|
    ensures AllFiles(repos[..i + 1]) == AllFiles(repos[..i]) + repos[i].files
  {
    assert repos[..i + 1][..i] == repos[..i];
  }

  /** `CodeIndexer`: the crawler and its statistics. */
  class CodeIndexer {
    var stats: Stats

    /** The accounting invariant: every file found is either indexed or skipped under one counter. */
    predicate Valid()
      reads this
    {
      stats.totalFiles == stats.indexedFiles + Skipped(stats)
    }

    constructor()
      ensures stats == InitialStats && Valid()
    {
      stats := InitialStats;
    }

    /** `_should_index_file`: decides the path and bumps the counter of the rule that rejected it. */
    method ShouldIndexFile(path: string) returns (ok: bool)
      modifies this
      ensures ok <==> FilterRule(path) == Accept
      ensures stats == Bump(old(stats), FilterRule(path))
    {
      var rule := FilterRule(path);
      stats := Bump(stats, rule);
      ok := rule == Accept;
    }

    /**
     * `_index_file`: the records of one file. A decoding or permission error
     * gives no records; any other read error is raised (`raised`).
     */
    method IndexFile(file: GoFile, repoName: string, parse: string -> GoParser.Node)
      returns (indexed: seq<IndexedFunction>, raised: bool)
      ensures raised <==> file.read.OtherError?
      ensures indexed == FileRecords(file, repoName, parse)
    {
      indexed := [];
      raised := false;
      match file.read {
        case DecodeOrPermissionError =>
        case OtherError =>
          raised := true;
        case Read(content) =>
          var functions := GoParser.ParseFile(file.path, content, parse(content));
          var i := 0;
          while i < |functions|
            invariant 0 <= i <= |functions|
            invariant indexed == Records(functions[..i], repoName, file.relPath)
          {
            RecordsStep(functions, i, repoName, file.relPath);
            indexed := indexed + [CreateIndexedFunction(functions[i], repoName, file.relPath)];
            i := i + 1;
          }
          assert functions[..|functions|] == functions;
      }
    }

    /** The comprehension `[f for f in go_files if self._should_index_file(f)]`, which bumps one skip counter per rejected file. */
    method FilterProduction(files: seq<GoFile>) returns (production: seq<GoFile>)
      modifies this
      ensures production == Production(files)
      ensures stats == FilterPass(old(stats), files)
    {
      production := [];
      var i := 0;
      while i < |files|
        invariant 0 <= i <= |files|
        invariant production == Production(files[..i])
        invariant stats == FilterPass(old(stats), files[..i])
      {
        FilterStep(old(stats), files, i);
        var ok := ShouldIndexFile(files[i].path);
        if ok {
          production := production + [files[i]];
        }
        i := i + 1;
      }
      assert files[..|files|] == files;
    }

    /**
     * `index_repo`: counts the files found, filters them, counts the accepted
     * ones, and collects the records of each accepted file, skipping a file
     * whose indexing raises.
     */
    method IndexRepo(repoName: string, files: seq<GoFile>, parse: string -> GoParser.Node)
      returns (functions: seq<IndexedFunction>)
      requires Valid()
      modifies this
      ensures Valid()
      ensures functions == RepoRecords(Production(files), repoName, parse)
      ensures stats.totalFiles == old(stats).totalFiles + |files|
      ensures stats.indexedFiles == old(stats).indexedFiles + |Production(files)|
      ensures stats.totalFunctions == old(stats).totalFunctions + |functions|
      ensures Skips(stats) == Skips(FilterPass(old(stats), files))
    {
      var start := stats.(totalFiles := stats.totalFiles + |files|);
      stats := start;
      var production := FilterProduction(files);
      FilterPassAccounts(start, files);
      FilterPassSkipsOnly(old(stats), start, files);
      stats := stats.(indexedFiles := stats.indexedFiles + |production|);
      functions := IndexProduction(production, repoName, parse);
    }

    /** The loop of `index_repo` over the production files: a file that raises is skipped, the others' records are appended and counted. */
    method IndexProduction(production: seq<GoFile>, repoName: string, parse: string -> GoParser.Node)
      returns (functions: seq<IndexedFunction>)
      modifies this
      ensures functions == RepoRecords(production, repoName, parse)
      ensures stats == old(stats).(totalFunctions := old(stats).totalFunctions + |functions|)
    {
      functions := [];
      var j := 0;
      while j < |production|
        invariant 0 <= j <= |production|
        invariant functions == RepoRecords(production[..j], repoName, parse)
        invariant stats == old(stats).(totalFunctions := old(stats).totalFunctions + |functions|)
      {
        RepoRecordsStep(production, j, repoName, parse);
        var indexed, raised := IndexFile(production[j], repoName, parse);
        if !raised {
          functions := functions + indexed;
          stats := stats.(totalFunctions := stats.totalFunctions + |indexed|);
        }
        j := j + 1;
      }
      assert production[..|production|] == production;
    }

    /** `index_all_repos`: indexes every crawled repository in turn and concatenates their records. */
    method IndexAllRepos(entries: seq<RepoDir>, parse: string -> GoParser.Node)
      returns (all: seq<IndexedFunction>)
      requires Valid()
      modifies this
      ensures Valid()
      ensures all == AllRecords(Crawled(entries), parse)
      ensures stats.totalFiles == old(stats).totalFiles + FilesFound(Crawled(entries))
      ensures stats.indexedFiles == old(stats).indexedFiles + ProductionFound(Crawled(entries))
      ensures stats.totalFunctions == old(stats).totalFunctions + |all|
      ensures Skips(stats) == Skips(FilterPass(old(stats), AllFiles(Crawled(entries))))
    {
      var repos := Crawled(entries);
      all := [];
      var i := 0;
      while i < |repos|
        invariant 0 <= i <= |repos|
        invariant Valid()
        invariant all == AllRecords(repos[..i], parse)
        invariant stats.totalFiles == old(stats).totalFiles + FilesFound(repos[..i])
        invariant stats.indexedFiles == old(stats).indexedFiles + ProductionFound(repos[..i])
        invariant stats.totalFunctions == old(stats).totalFunctions + |all|
        invariant Skips(stats) == Skips(FilterPass(old(stats), AllFiles(repos[..i])))
      {
        AllRecordsStep(repos, i, parse);
        var before := stats;
        var fs := IndexRepo(repos[i].name, repos[i].files, parse);
        FilterPassSkipsOnly(before, FilterPass(old(stats), AllFiles(repos[..i])), repos[i].files);
        FilterPassConcat(old(stats), AllFiles(repos[..i]), repos[i].files);
        all := all + fs;
        i := i + 1;
      }
      assert repos[..|repos|] == repos;
    }
  }
}
