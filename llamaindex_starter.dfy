/**
 * The LlamaIndex starter's own helpers: the configuration defaults, the
 * function-level chunking of Go files into documents, and the metadata each
 * document is enriched with. The tree-sitter parser is an oracle that yields
 * the syntax tree of a file's text, or nothing where it raises.
 */
module LlamaStarter {
  import opened Wrappers
  import opened Sequences
  import opened Strings
  import opened Values
  import GoParser

  type Node = GoParser.Node

  /** The tree of a file's text, or `None` where parsing raises. */
  type GoParse = string -> Option<Node>

  // ---------------------------------------------------------------------------
  // Configuration
  // ---------------------------------------------------------------------------

  const DefaultReposPath := "./go-repos"
  const DefaultPersistDir := "./chroma_db"
  const DefaultChunkSize := 512
  const DefaultChunkOverlap := 50
  const DefaultTopK := 5
  const DefaultSimilarityThreshold := 0.7
  const DefaultEmbeddingModel := "text-embedding-3-small"
  const DefaultLlmModel := "claude-sonnet-4-20250514"

  /** The extensions indexed when none are given. */
  const DefaultExtensions: seq<string> := [".go", ".js", ".ts", ".py", ".php"]

  /** The path patterns excluded when none are given. */
  const DefaultExcludes: seq<string> := ["vendor/", "node_modules/", ".git/", "test/", "_test.go"]

  /** The dataclass `Config`; a list field left as `None` is `Option.None` until `PostInit` fills it. */
  class Config {
    var reposPath: string
    var persistDir: string
    var fileExtensions: Option<seq<string>>
    var excludePatterns: Option<seq<string>>
    var chunkSize: int
    var chunkOverlap: int
    var topK: int
    var similarityThreshold: real
    var embeddingModel: string
    var llmModel: string

    /** Both list fields are set once the object exists. */
    predicate Settled()
      reads this
    {
      fileExtensions.Some? && excludePatterns.Some?
    }

    /** The generated `__init__`: every field from its argument or default, then `__post_init__`. */
    constructor (reposPath: string := DefaultReposPath,
                 persistDir: string := DefaultPersistDir,
                 fileExtensions: Option<seq<string>> := None,
                 excludePatterns: Option<seq<string>> := None,
                 chunkSize: int := DefaultChunkSize,
                 chunkOverlap: int := DefaultChunkOverlap,
                 topK: int := DefaultTopK,
                 similarityThreshold: real := DefaultSimilarityThreshold,
                 embeddingModel: string := DefaultEmbeddingModel,
                 llmModel: string := DefaultLlmModel)
      ensures Settled()
      ensures this.fileExtensions == Some(if fileExtensions.None? then DefaultExtensions else fileExtensions.value)
      ensures this.excludePatterns == Some(if excludePatterns.None? then DefaultExcludes else excludePatterns.value)
      ensures this.reposPath == reposPath && this.persistDir == persistDir
      ensures this.chunkSize == chunkSize && this.chunkOverlap == chunkOverlap && this.topK == topK
      ensures this.similarityThreshold == similarityThreshold
      ensures this.embeddingModel == embeddingModel && this.llmModel == llmModel
    {
      this.reposPath := reposPath;
      this.persistDir := persistDir;
      this.fileExtensions := fileExtensions;
      this.excludePatterns := excludePatterns;
      this.chunkSize := chunkSize;
      this.chunkOverlap := chunkOverlap;
      this.topK := topK;
      this.similarityThreshold := similarityThreshold;
      this.embeddingModel := embeddingModel;
      this.llmModel := llmModel;
      new;
      PostInit();
    }

    /** `__post_init__`: a list left as `None` gets its default; a given list, even an empty one, is kept. */
    method PostInit()
      modifies this
      ensures Settled()
      ensures old(fileExtensions).None? ==> fileExtensions == Some(DefaultExtensions)
      ensures old(fileExtensions).Some? ==> fileExtensions == old(fileExtensions)
      ensures old(excludePatterns).None? ==> excludePatterns == Some(DefaultExcludes)
      ensures old(excludePatterns).Some? ==> excludePatterns == old(excludePatterns)
      ensures reposPath == old(reposPath) && persistDir == old(persistDir)
      ensures chunkSize == old(chunkSize) && chunkOverlap == old(chunkOverlap) && topK == old(topK)
      ensures similarityThreshold == old(similarityThreshold)
      ensures embeddingModel == old(embeddingModel) && llmModel == old(llmModel)
    {
      if fileExtensions.None? {
        fileExtensions := Some(DefaultExtensions);
      }
      if excludePatterns.None? {
        excludePatterns := Some(DefaultExcludes);
      }
    }
  }

  // ---------------------------------------------------------------------------
  // Names and docstrings
  // ---------------------------------------------------------------------------

  const PackageClause := "package_clause"
  const PackageIdentifier := "package_identifier"
  const UnknownPackage := "unknown"
  const AnonymousFunction := "anonymous"

  /** A `package_clause` node that has a `package_identifier` child. */
  predicate NamesPackage(n: Node) {
    n.kind == PackageClause && GoParser.FirstOfKind(n.children, PackageIdentifier).Some?
  }

  /** The text of a naming clause's first `package_identifier` child. */
  function PackageIdent(n: Node, code: string): string
    requires NamesPackage(n)
  {
    GoParser.Text(code, n.children[GoParser.FirstOfKind(n.children, PackageIdentifier).value])
  }

  /** The search of `_extract_package_name` over the root's children from the first on. */
  function PackageFrom(children: seq<Node>, code: string): string {
    if |children| == 0 then UnknownPackage
    else if NamesPackage(children[0]) then PackageIdent(children[0], code)
    else PackageFrom(children[1..], code)
  }

  /** `_extract_package_name`. */
  function PackageName(root: Node, code: string): string {
    PackageFrom(root.children, code)
  }

  lemma {:induction false} PackageFromFacts(children: seq<Node>, code: string)
    ensures (forall i :: 0 <= i < |children| ==> !NamesPackage(children[i])) ==> PackageFrom(children, code) == UnknownPackage
    ensures forall i :: 0 <= i < |children| && NamesPackage(children[i]) && (forall j :: 0 <= j < i ==> !NamesPackage(children[j])) ==>
              PackageFrom(children, code) == PackageIdent(children[i], code)
  {
    if |children| > 0 {
      var tail := children[1..];
      PackageFromFacts(tail, code);
      if forall i :: 0 <= i < |children| ==> !NamesPackage(children[i]) {
        forall i | 0 <= i < |tail|
          ensures !NamesPackage(tail[i])
        {
          assert tail[i] == children[i + 1];
        }
      }
      forall i | 0 <= i < |children| && NamesPackage(children[i]) && (forall j :: 0 <= j < i ==> !NamesPackage(children[j]))
        ensures PackageFrom(children, code) == PackageIdent(children[i], code)
      {
        if i > 0 {
          assert !NamesPackage(children[0]);
          assert tail[i - 1] == children[i];
          forall j | 0 <= j < i - 1
            ensures !NamesPackage(tail[j])
          {
            assert tail[j] == children[j + 1];
          }
        }
      }
    }
  }

  /**
   * The package is the identifier of the first top-level `package_clause` that has
   * one (a clause without an identifier is passed over), and "unknown" when none has.
   */
  lemma PackageNameFacts(root: Node, code: string)
    ensures (forall i :: 0 <= i < |root.children| ==> !NamesPackage(root.children[i])) ==> PackageName(root, code) == UnknownPackage
    ensures forall i :: 0 <= i < |root.children| && NamesPackage(root.children[i])
                        && (forall j :: 0 <= j < i ==> !NamesPackage(root.children[j])) ==>
              PackageName(root, code) == PackageIdent(root.children[i], code)
  {
    PackageFromFacts(root.children, code);
  }

  /** `_extract_function_name`: the text of the first `identifier` child, else "anonymous". */
  function ExtractFunctionName(node: Node, code: string): (r: string)
    ensures (forall j :: 0 <= j < |node.children| ==> node.children[j].kind != "identifier") ==> r == AnonymousFunction
    ensures forall j :: 0 <= j < |node.children| && node.children[j].kind == "identifier"
                        && (forall m :: 0 <= m < j ==> node.children[m].kind != "identifier") ==>
              r == GoParser.Text(code, node.children[j])
  {
    match GoParser.FunctionName(node, code)
    case None => AnonymousFunction
    case Some(name) => name
  }

  /**
   * `_extract_docstring`: the text before the node is split into lines; when there are
   * at least two, the stripped second-to-last one (the line above the one the node
   * starts on) is the docstring if it begins with "//".
   */
  function ExtractDocstring(node: Node, code: string): (r: Option<string>)
    ensures r.Some? ==> StartsWith(r.value, "//")
  {
    var lines := SplitOn(Take(code, node.startByte), "\n");
    if |lines| >= 2 && StartsWith(Strip(lines[|lines| - 2]), "//") then Some(Strip(lines[|lines| - 2])) else None
  }

  /**
   * Written as lines: when the node starts on line `lead` after the lines `above` and
   * `comment`, the docstring is `comment` stripped, exactly when that begins with "//".
   */
  lemma DocstringAbove(above: seq<string>, comment: string, lead: string, rest: string, node: Node, code: string)
    requires forall k :: 0 <= k < |above| ==> '\n' !in above[k]
    requires '\n' !in comment && '\n' !in lead
    requires code == Join(above + [comment, lead], "\n") + rest
    requires node.startByte == |Join(above + [comment, lead], "\n")|
    ensures ExtractDocstring(node, code) == if StartsWith(Strip(comment), "//") then Some(Strip(comment)) else None
  {
    var lines := above + [comment, lead];
    var prefix := Join(lines, "\n");
    assert Take(code, node.startByte) == prefix;
    SplitJoin(lines, '\n');
    assert lines[|lines| - 2] == comment;
  }

  /** A node on the file's first line has no line above it, so no docstring. */
  lemma DocstringOnFirstLine(node: Node, code: string)
    requires '\n' !in Take(code, node.startByte)
    ensures ExtractDocstring(node, code) == None
  {
    SplitAbsent(Take(code, node.startByte), "\n");
  }

  // ---------------------------------------------------------------------------
  // Function chunks
  // ---------------------------------------------------------------------------

  /** A document's text and metadata; a chunk's "content" and "metadata" are exactly these. */
  datatype DocumentState = DocumentState(text: string, metadata: map<string, Value>)

  /** The chunk `extract_functions` builds for one declaration node. */
  function ChunkOf(node: Node, code: string, filePath: string, package: string): DocumentState {
    var docstring := ExtractDocstring(node, code);
    DocumentState(
      GoParser.Text(code, node),
      map[
        "file_path" := Str(filePath),
        "language" := Str("go"),
        "package" := Str(package),
        "function_name" := Str(ExtractFunctionName(node, code)),
        "has_docstring" := Bool(docstring.Some?),
        "docstring" := (if docstring.Some? then Str(docstring.value) else Null),
        "start_line" := Int(node.startRow + 1),
        "end_line" := Int(node.endRow + 1)
      ])
  }

  /** The declaration nodes among the visits, in visiting order. */
  function Declarations(visits: seq<GoParser.Visit>): seq<Node> {
    if |visits| == 0 then []
    else
      var last := visits[|visits| - 1].node;
      Declarations(visits[..|visits| - 1]) + (if GoParser.IsDeclaration(last.kind) then [last] else [])
  }

  /** The chunks of a sequence of visits: one per declaration. */
  function ChunksOf(visits: seq<GoParser.Visit>, code: string, filePath: string, package: string): seq<DocumentState> {
    if |visits| == 0 then []
    else
      var last := visits[|visits| - 1].node;
      ChunksOf(visits[..|visits| - 1], code, filePath, package)
      + (if GoParser.IsDeclaration(last.kind) then [ChunkOf(last, code, filePath, package)] else [])
  }

  /** The chunks of a file: one per function or method declaration, in pre-order. */
  function Extracted(root: Node, code: string, filePath: string): seq<DocumentState> {
    ChunksOf(GoParser.Traverse(root, []), code, filePath, PackageName(root, code))
  }

  lemma ChunksStep(visits: seq<GoParser.Visit>, i: nat, code: string, filePath: string, package: string)
    requires i < |visits|
    ensures ChunksOf(visits[..i + 1], code, filePath, package)
            == ChunksOf(visits[..i], code, filePath, package)
               + (if GoParser.IsDeclaration(visits[i].node.kind) then [ChunkOf(visits[i].node, code, filePath, package)] else [])
  {
    PrefixStep(visits, i);
  }

  /** The `k`-th chunk is the chunk of the `k`-th declaration visited. */
  lemma {:induction false} ChunksOfDeclarations(visits: seq<GoParser.Visit>, code: string, filePath: string, package: string)
    ensures |ChunksOf(visits, code, filePath, package)| == |Declarations(visits)|
    ensures forall k :: 0 <= k < |Declarations(visits)| ==>
              ChunksOf(visits, code, filePath, package)[k] == ChunkOf(Declarations(visits)[k], code, filePath, package)
  {
    if |visits| > 0 {
      ChunksOfDeclarations(visits[..|visits| - 1], code, filePath, package);
    }
  }

  /** The metadata of a chunk: the path, language "go", the package, the name, the docstring and the 1-based lines. */
  lemma ChunkOfFacts(node: Node, code: string, filePath: string, package: string)
    ensures var chunk := ChunkOf(node, code, filePath, package);
            && chunk.text == GoParser.Text(code, node)
            && chunk.metadata["file_path"] == Str(filePath)
            && chunk.metadata["language"] == Str("go")
            && chunk.metadata["start_line"] == Int(node.startRow + 1)
            && chunk.metadata["end_line"] == Int(node.endRow + 1)
  {
  }

  /** The names in a chunk's metadata, and a docstring flag that agrees with the docstring entry. */
  lemma ChunkOfNames(node: Node, code: string, filePath: string, package: string)
    ensures var chunk := ChunkOf(node, code, filePath, package);
            && chunk.metadata["package"] == Str(package)
            && chunk.metadata["function_name"] == Str(ExtractFunctionName(node, code))
            && (chunk.metadata["has_docstring"] == Bool(true) <==> chunk.metadata["docstring"] != Null)
            && (chunk.metadata["docstring"] != Null ==> chunk.metadata["docstring"] == Str(ExtractDocstring(node, code).value))
  {
  }

  /** The chunks of a file are, in order, the chunks of its declaration nodes in pre-order, all with the file's package. */
  lemma ExtractedFacts(root: Node, code: string, filePath: string)
    ensures |Extracted(root, code, filePath)| == |Declarations(GoParser.Traverse(root, []))|
    ensures forall k :: 0 <= k < |Extracted(root, code, filePath)| ==>
              && GoParser.IsDeclaration(Declarations(GoParser.Traverse(root, []))[k].kind)
              && Extracted(root, code, filePath)[k]
                 == ChunkOf(Declarations(GoParser.Traverse(root, []))[k], code, filePath, PackageName(root, code))
  {
    var visits := GoParser.Traverse(root, []);
    ChunksOfDeclarations(visits, code, filePath, PackageName(root, code));
    DeclarationsAreDeclarations(visits);
  }

  lemma {:induction false} DeclarationsAreDeclarations(visits: seq<GoParser.Visit>)
    ensures forall k :: 0 <= k < |Declarations(visits)| ==> GoParser.IsDeclaration(Declarations(visits)[k].kind)
  {
    if |visits| > 0 {
      DeclarationsAreDeclarations(visits[..|visits| - 1]);
    }
  }

  /** `extract_functions`: the traversal loop appending a chunk per declaration. */
  method ExtractFunctions(code: string, filePath: string, root: Node) returns (chunks: seq<DocumentState>)
    ensures chunks == Extracted(root, code, filePath)
  {
    var package := PackageName(root, code);
    var visits := GoParser.Traverse(root, []);
    chunks := [];
    for i := 0 to |visits|
      invariant chunks == ChunksOf(visits[..i], code, filePath, package)
    {
      ChunksStep(visits, i, code, filePath, package);
      var node := visits[i].node;
      if node.kind in [GoParser.FunctionDeclaration, GoParser.MethodDeclaration] {
        chunks := chunks + [ChunkOf(node, code, filePath, package)];
      }
    }
    TakeAll(visits);
  }

  // ---------------------------------------------------------------------------
  // Documents and `_chunk_go_files`
  // ---------------------------------------------------------------------------

  /** A llama_index `Document`: its text, and metadata that `EnrichMetadata` updates in place. */
  class Document {
    const text: string
    var metadata: map<string, Value>

    constructor (text: string, metadata: map<string, Value>)
      ensures this.text == text && this.metadata == metadata
    {
      this.text := text;
      this.metadata := metadata;
    }

    function State(): DocumentState
      reads this
    {
      DocumentState(text, metadata)
    }
  }

  /** The states of a list of documents, in order. */
  function Snapshot(docs: seq<Document>): (r: seq<DocumentState>)
    reads docs
    ensures |r| == |docs|
  {
    if |docs| == 0 then [] else Snapshot(docs[..|docs| - 1]) + [docs[|docs| - 1].State()]
  }

  const GoSuffix := ".go"

  /** `doc.metadata.get('file_path', '')`. */
  function FilePathOf(metadata: map<string, Value>): Value {
    Get(metadata, "file_path", Str(""))
  }

  /** The `AttributeError` that `.endswith` raises on a path that is not a string. */
  function EndsWithError(v: Value): string {
    "'" + TypeName(v) + "' object has no attribute 'endswith'"
  }

  /**
   * What one document becomes: a `.go` file that parses is replaced by its chunks; one
   * that does not parse, and every other file, is kept as it is.
   */
  function Expansion(d: DocumentState, parse: GoParse): Result<seq<DocumentState>, string> {
    match FilePathOf(d.metadata)
    case Str(filePath) =>
      if EndsWith(filePath, GoSuffix) then
        match parse(d.text)
        case None => Success([d])
        case Some(root) => Success(Extracted(root, d.text, filePath))
      else Success([d])
    case v => Failure(EndsWithError(v))
  }

  /** The result of `_chunk_go_files`: the expansions in document order, or the first error. */
  function Chunked(docs: seq<DocumentState>, parse: GoParse): Result<seq<DocumentState>, string> {
    if |docs| == 0 then Success([])
    else Chain(Chunked(docs[..|docs| - 1], parse), Expansion(docs[|docs| - 1], parse))
  }

  /** Running one step after another: the first error wins, otherwise the outputs are concatenated. */
  function Chain(first: Result<seq<DocumentState>, string>, next: Result<seq<DocumentState>, string>): Result<seq<DocumentState>, string> {
    match first
    case Failure(e) => Failure(e)
    case Success(xs) =>
      match next
      case Failure(e) => Failure(e)
      case Success(ys) => Success(xs + ys)
  }

  lemma ChainAppendAssociative(x: Result<seq<DocumentState>, string>, y: Result<seq<DocumentState>, string>, z: Result<seq<DocumentState>, string>)
    ensures Chain(Chain(x, y), z) == Chain(x, Chain(y, z))
  {
    if x.Success? && y.Success? && z.Success? {
      assert x.value + y.value + z.value == x.value + (y.value + z.value);
    }
  }

  lemma ChainUnit(x: Result<seq<DocumentState>, string>)
    ensures Chain(x, Success([])) == x
  {
    if x.Success? {
      assert x.value + [] == x.value;
    }
  }

  /** A document the expansion keeps: its path is a string, and it is not Go or does not parse. */
  predicate KeptAsIs(d: DocumentState, parse: GoParse) {
    FilePathOf(d.metadata).Str? && (!EndsWith(FilePathOf(d.metadata).s, GoSuffix) || parse(d.text).None?)
  }

  /** Documents that are not Go files, or do not parse, come out unchanged and in order. */
  lemma {:induction false} PassThrough(docs: seq<DocumentState>, parse: GoParse)
    requires forall k :: 0 <= k < |docs| ==> KeptAsIs(docs[k], parse)
    ensures Chunked(docs, parse) == Success(docs)
  {
    if |docs| > 0 {
      var init := docs[..|docs| - 1];
      assert forall k :: 0 <= k < |init| ==> init[k] == docs[k];
      PassThrough(init, parse);
      KeptExpansion(docs[|docs| - 1], parse);
      SplitLast(docs);
    }
  }

  lemma KeptExpansion(d: DocumentState, parse: GoParse)
    requires KeptAsIs(d, parse)
    ensures Expansion(d, parse) == Success([d])
  {
  }

  /** Chunking a concatenation chunks the parts and concatenates the results: the order across documents is kept. */
  lemma {:induction false} ChunkedConcat(a: seq<DocumentState>, b: seq<DocumentState>, parse: GoParse)
    ensures Chunked(a + b, parse) == Chain(Chunked(a, parse), Chunked(b, parse))
  {
    if |b| == 0 {
      assert a + b == a;
      ChainUnit(Chunked(a, parse));
    } else {
      var init := b[..|b| - 1];
      var last := b[|b| - 1];
      ChunkedConcat(a, init, parse);
      InitOfAppend(a, b);
      ChainAppendAssociative(Chunked(a, parse), Chunked(init, parse), Expansion(last, parse));
    }
  }

  /** A document's expansion takes its place in the output, between those of its neighbours. */
  lemma ChunkedSingle(before: seq<DocumentState>, d: DocumentState, after: seq<DocumentState>, parse: GoParse)
    requires Chunked(before + [d] + after, parse).Success?
    ensures Chunked(before, parse).Success? && Expansion(d, parse).Success? && Chunked(after, parse).Success?
    ensures Chunked(before + [d] + after, parse).value
            == Chunked(before, parse).value + Expansion(d, parse).value + Chunked(after, parse).value
  {
    ChunkedConcat(before + [d], after, parse);
    ChunkedConcat(before, [d], parse);
    assert [d][..0] == [];
  }

  /** One more document: its expansion is appended, or its error ends the list. */
  lemma ChunkedStep(states: seq<DocumentState>, i: nat, parse: GoParse)
    requires i < |states|
    ensures Chunked(states[..i + 1], parse) == Chain(Chunked(states[..i], parse), Expansion(states[i], parse))
  {
    PrefixStep(states, i);
  }

  lemma {:induction false} SnapshotIndex(docs: seq<Document>, i: nat)
    requires i < |docs|
    ensures Snapshot(docs)[i] == docs[i].State()
    decreases |docs|
  {
    if i < |docs| - 1 {
      SnapshotIndex(docs[..|docs| - 1], i);
    }
  }

  /** Once a prefix fails, everything after it is ignored. */
  lemma FailureStays(a: seq<DocumentState>, b: seq<DocumentState>, parse: GoParse)
    requires Chunked(a, parse).Failure?
    ensures Chunked(a + b, parse) == Chunked(a, parse)
  {
    ChunkedConcat(a, b, parse);
  }

  lemma SnapshotAppend(docs: seq<Document>, d: Document)
    ensures Snapshot(docs + [d]) == Snapshot(docs) + [d.State()]
  {
    InitOfAppend(docs, [d]);
    assert [d][..0] == [];
  }

  lemma {:induction false} SnapshotConcat(a: seq<Document>, b: seq<Document>)
    ensures Snapshot(a + b) == Snapshot(a) + Snapshot(b)
  {
    if |b| == 0 {
      assert a + b == a;
    } else {
      var init := b[..|b| - 1];
      SnapshotConcat(a, init);
      SplitLast(b);
      AppendAssociative(a, init, [b[|b| - 1]]);
      SnapshotAppend(a + init, b[|b| - 1]);
      SnapshotAppend(init, b[|b| - 1]);
    }
  }

  /** A list of documents whose first `j` fail fails with the same error. */
  lemma PrefixFailure(states: seq<DocumentState>, j: nat, parse: GoParse)
    requires j <= |states| && Chunked(states[..j], parse).Failure?
    ensures Chunked(states, parse) == Chunked(states[..j], parse)
  {
    SplitAt(states, j);
    FailureStays(states[..j], states[j..], parse);
  }

  /** The inner loop of `_chunk_go_files`: a new `Document` per chunk, appended in order. */
  method AppendChunks(enhanced: seq<Document>, chunks: seq<DocumentState>) returns (out: seq<Document>)
    ensures Snapshot(out) == Snapshot(enhanced) + chunks
    ensures forall d :: d in out ==> d in enhanced || fresh(d)
  {
    out := enhanced;
    for j := 0 to |chunks|
      invariant Snapshot(out) == Snapshot(enhanced) + chunks[..j]
      invariant forall d :: d in out ==> d in enhanced || fresh(d)
    {
      var doc := new Document(chunks[j].text, chunks[j].metadata);
      SnapshotAppend(out, doc);
      out := out + [doc];
      PrefixStep(chunks, j);
    }
    TakeAll(chunks);
  }

  /** The body of `_chunk_go_files`'s loop for one document: what it appends, or the error it raises. */
  method ExpandInto(enhanced: seq<Document>, doc: Document, parse: GoParse) returns (r: Result<seq<Document>, string>)
    ensures r.Success? <==> Expansion(doc.State(), parse).Success?
    ensures r.Success? ==> Snapshot(r.value) == Snapshot(enhanced) + Expansion(doc.State(), parse).value
    ensures r.Failure? ==> r.error == Expansion(doc.State(), parse).error
    ensures r.Success? ==> forall d :: d in r.value ==> d in enhanced || d == doc || fresh(d)
  {
    var filePath := FilePathOf(doc.metadata);
    if !filePath.Str? {
      return Failure(EndsWithError(filePath));
    }
    if EndsWith(filePath.s, GoSuffix) {
      var tree := parse(doc.text);
      if tree.Some? {
        var chunks := ExtractFunctions(doc.text, filePath.s, tree.value);
        var out := AppendChunks(enhanced, chunks);
        return Success(out);
      }
    }
    SnapshotAppend(enhanced, doc);
    return Success(enhanced + [doc]);
  }

  /**
   * `_chunk_go_files`. The output lists the documents kept as they are (the same
   * objects) and new documents for the chunks, in the order the expansions give.
   */
  method ChunkGoFiles(documents: seq<Document>, parse: GoParse) returns (r: Result<seq<Document>, string>)
    ensures r.Success? <==> Chunked(Snapshot(documents), parse).Success?
    ensures r.Success? ==> Snapshot(r.value) == Chunked(Snapshot(documents), parse).value
    ensures r.Failure? ==> r.error == Chunked(Snapshot(documents), parse).error
    ensures r.Success? ==> forall d :: d in r.value ==> d in documents || fresh(d)
  {
    ghost var states := Snapshot(documents);
    var enhanced: seq<Document> := [];
    for i := 0 to |documents|
      invariant Snapshot(documents) == states
      invariant Chunked(states[..i], parse) == Success(Snapshot(enhanced))
      invariant forall d :: d in enhanced ==> d in documents || fresh(d)
    {
      ChunkedStep(states, i, parse);
      SnapshotIndex(documents, i);
      var next := ExpandInto(enhanced, documents[i], parse);
      if next.Failure? {
        PrefixFailure(states, i + 1, parse);
        return Failure(next.error);
      }
      enhanced := next.value;
    }
    TakeAll(states);
    return Success(enhanced);
  }

  // ---------------------------------------------------------------------------
  // Paths and `_enrich_metadata`
  // ---------------------------------------------------------------------------

  /** The pieces of a path split at '/', without the empty and "." ones. */
  function Kept(pieces: seq<string>): (r: seq<string>)
    ensures forall k :: 0 <= k < |r| ==> r[k] != "" && r[k] != "."
  {
    if |pieces| == 0 then []
    else (if pieces[0] == "" || pieces[0] == "." then [] else [pieces[0]]) + Kept(pieces[1..])
  }

  /** The named components of a POSIX path. */
  function Components(path: string): seq<string> {
    Kept(SplitOn(path, "/"))
  }

  /** `PurePosixPath(path).parts`: the root "/" of an absolute path, then the components. */
  function Parts(path: string): seq<string> {
    (if StartsWith(path, "/") then ["/"] else []) + Components(path)
  }

  /** `PurePosixPath(path).name`: the last component, or "" when there is none. */
  function Name(path: string): string {
    var components := Components(path);
    if |components| == 0 then "" else components[|components| - 1]
  }

  /** The suffix of a file name: from its last '.', when that is neither its first nor its last character. */
  function NameSuffix(name: string): string {
    match RFindChar(name, '.')
    case None => ""
    case Some(i) => if 0 < i < |name| - 1 then name[i..] else ""
  }

  /** `PurePosixPath(path).suffix`. */
  function Suffix(path: string): string {
    NameSuffix(Name(path))
  }

  /** `lang_map.get(ext, 'unknown')` over the map of the five extensions. */
  function LanguageOf(ext: string): string {
    if ext == ".go" then "go"
    else if ext == ".js" then "javascript"
    else if ext == ".ts" then "typescript"
    else if ext == ".py" then "python"
    else if ext == ".php" then "php"
    else "unknown"
  }

  /** The `TypeError` that `Path()` raises on a value that is not a string. */
  function PathError(v: Value): string {
    "expected str, bytes or os.PathLike object, not " + TypeName(v)
  }

  /** The three updates of `_enrich_metadata` for a string path, in their order. */
  function Enriched(metadata: map<string, Value>, text: string, filePath: string): map<string, Value> {
    var parts := Parts(filePath);
    var named := if |parts| > 0 then metadata["repo_name" := Str(parts[0])] else metadata;
    var tagged := if "language" !in named then named["language" := Str(LanguageOf(Suffix(filePath)))] else named;
    tagged["content_length" := Int(|text|)]
  }

  /** The metadata after `_enrich_metadata`, or the error it raises. */
  function Enrichment(metadata: map<string, Value>, text: string): Result<map<string, Value>, string> {
    match FilePathOf(metadata)
    case Str(filePath) => Success(Enriched(metadata, text, filePath))
    case v => Failure(PathError(v))
  }

  /**
   * Enrichment fails only on a path that is not a string. Otherwise it records the
   * text's length, sets the language only when absent (from the suffix, "unknown" for
   * an unlisted one), names the repository after the first path part when there is
   * one, and leaves every other entry alone.
   */
  lemma EnrichmentFacts(metadata: map<string, Value>, text: string)
    ensures Enrichment(metadata, text).Success? <==> FilePathOf(metadata).Str?
    ensures Enrichment(metadata, text).Success? ==>
              var r := Enrichment(metadata, text).value;
              var filePath := FilePathOf(metadata).s;
              && r.Keys == metadata.Keys + {"language", "content_length"} + (if |Parts(filePath)| > 0 then {"repo_name"} else {})
              && r["content_length"] == Int(|text|)
              && ("language" in metadata ==> r["language"] == metadata["language"])
              && ("language" !in metadata ==> r["language"] == Str(LanguageOf(Suffix(filePath))))
              && (|Parts(filePath)| > 0 ==> r["repo_name"] == Str(Parts(filePath)[0]))
              && (|Parts(filePath)| == 0 && "repo_name" in metadata ==> r["repo_name"] == metadata["repo_name"])
              && (forall key :: key in metadata && key !in {"repo_name", "language", "content_length"} ==> r[key] == metadata[key])
  {
    if FilePathOf(metadata).Str? {
      var filePath := FilePathOf(metadata).s;
      EnrichedKeys(metadata, text, filePath);
      EnrichedEntries(metadata, text, filePath);
      EnrichedOthers(metadata, text, filePath);
    }
  }

  lemma EnrichedKeys(metadata: map<string, Value>, text: string, filePath: string)
    ensures Enriched(metadata, text, filePath).Keys
            == metadata.Keys + {"language", "content_length"} + (if |Parts(filePath)| > 0 then {"repo_name"} else {})
  {
  }

  lemma EnrichedEntries(metadata: map<string, Value>, text: string, filePath: string)
    ensures var r := Enriched(metadata, text, filePath);
            && "content_length" in r && "language" in r
            && r["content_length"] == Int(|text|)
            && ("language" in metadata ==> r["language"] == metadata["language"])
            && ("language" !in metadata ==> r["language"] == Str(LanguageOf(Suffix(filePath))))
            && (|Parts(filePath)| > 0 ==> "repo_name" in r && r["repo_name"] == Str(Parts(filePath)[0]))
            && (|Parts(filePath)| == 0 && "repo_name" in metadata ==> "repo_name" in r && r["repo_name"] == metadata["repo_name"])
  {
  }

  lemma EnrichedOthers(metadata: map<string, Value>, text: string, filePath: string)
    ensures var r := Enriched(metadata, text, filePath);
            forall key :: key in metadata && key !in {"repo_name", "language", "content_length"} ==> key in r && r[key] == metadata[key]
  {
  }


  /** Enriching twice is enriching once, so a document listed twice ends up the same. */
  lemma EnrichmentIdempotent(metadata: map<string, Value>, text: string)
    requires Enrichment(metadata, text).Success?
    ensures Enrichment(Enrichment(metadata, text).value, text) == Enrichment(metadata, text)
  {
    var r := Enrichment(metadata, text).value;
    var filePath := FilePathOf(metadata).s;
    EnrichmentFacts(metadata, text);
    assert FilePathOf(r) == Str(filePath);
    var parts := Parts(filePath);
    var named := if |parts| > 0 then r["repo_name" := Str(parts[0])] else r;
    if |parts| > 0 {
      UpdateSame(r, "repo_name", Str(parts[0]));
    }
    assert named == r;
    UpdateSame(r, "content_length", Int(|text|));
    assert Enriched(r, text, filePath) == r;
  }

  /** Storing the value a key already has changes nothing. */
  lemma UpdateSame<K, V>(m: map<K, V>, k: K, v: V)
    requires k in m && m[k] == v
    ensures m[k := v] == m
  {
  }

  /** `_enrich_metadata`, updating the document's metadata in place, or raising on a non-string path. */
  method EnrichMetadata(doc: Document) returns (error: Option<string>)
    modifies doc
    ensures Enrichment(old(doc.metadata), doc.text).Success? ==>
              error.None? && doc.metadata == Enrichment(old(doc.metadata), doc.text).value
    ensures Enrichment(old(doc.metadata), doc.text).Failure? ==>
              error == Some(Enrichment(old(doc.metadata), doc.text).error) && doc.metadata == old(doc.metadata)
  {
    var metadata := doc.metadata;
    var filePath := FilePathOf(metadata);
    if !filePath.Str? {
      return Some(PathError(filePath));
    }
    var parts := Parts(filePath.s);
    if |parts| > 0 {
      metadata := metadata["repo_name" := Str(parts[0])];
    }
    if "language" !in metadata {
      metadata := metadata["language" := Str(LanguageOf(Suffix(filePath.s)))];
    }
    metadata := metadata["content_length" := Int(|doc.text|)];
    assert metadata == Enriched(doc.metadata, doc.text, filePath.s);
    doc.metadata := metadata;
    error := None;
  }



  /** Keeping every piece that is named leaves the pieces as they are. */
  lemma {:induction false} KeptAll(pieces: seq<string>)
    requires forall k :: 0 <= k < |pieces| ==> pieces[k] != "" && pieces[k] != "."
    ensures Kept(pieces) == pieces
  {
    if |pieces| > 0 {
      KeptAll(pieces[1..]);
    }
  }

  lemma JoinHead(parts: seq<string>, sep: string)
    requires |parts| > 0 && parts[0] != ""
    ensures |Join(parts, sep)| > 0 && Join(parts, sep)[0] == parts[0][0]
  {
    if |parts| > 1 {
      assert Join(parts, sep) == parts[0] + sep + Join(parts[1..], sep);
    }
  }

  /** A relative path written as named components has those components as its parts. */
  lemma RelativePathParts(components: seq<string>)
    requires |components| > 0
    requires forall k :: 0 <= k < |components| ==> components[k] != "" && components[k] != "." && '/' !in components[k]
    ensures Parts(Join(components, "/")) == components
    ensures Name(Join(components, "/")) == components[|components| - 1]
  {
    var path := Join(components, "/");
    RelativeComponents(components);
    RelativeNotRooted(components);
    assert Parts(path) == [] + components;
  }

  lemma RelativeComponents(components: seq<string>)
    requires |components| > 0
    requires forall k :: 0 <= k < |components| ==> components[k] != "" && components[k] != "." && '/' !in components[k]
    ensures Components(Join(components, "/")) == components
  {
    SplitJoin(components, '/');
    KeptAll(components);
  }

  lemma RelativeNotRooted(components: seq<string>)
    requires |components| > 0 && components[0] != "" && '/' !in components[0]
    ensures !StartsWith(Join(components, "/"), "/")
  {
    JoinHead(components, "/");
    assert components[0][0] in components[0];
  }

  /** The suffix of `stem.ext` is `.ext` when `stem` is not empty and `ext` is a dot-free non-empty word. */
  lemma SuffixOfName(stem: string, ext: string)
    requires stem != "" && ext != "" && '.' !in ext
    ensures NameSuffix(stem + "." + ext) == "." + ext
  {
    var name := stem + "." + ext;
    assert name[|stem|] == '.';
    forall j | |stem| < j < |name|
      ensures name[j] != '.'
    {
      assert name[j] == ext[j - |stem| - 1];
    }
    var i := RFindChar(name, '.').value;
    assert i == |stem|;
    assert name[i..] == "." + ext;
  }

  lemma GoNameSuffix(stem: string)
    requires stem != ""
    ensures NameSuffix(stem + ".go") == ".go"
  {
    SuffixOfName(stem, "go");
    assert stem + ".go" == stem + "." + "go";
  }

  lemma GoFileComponents(dirs: seq<string>, stem: string)
    requires forall k :: 0 <= k < |dirs| ==> dirs[k] != "" && dirs[k] != "." && '/' !in dirs[k]
    requires stem != "" && '/' !in stem
    ensures var components := dirs + [stem + ".go"];
            forall k :: 0 <= k < |components| ==> components[k] != "" && components[k] != "." && '/' !in components[k]
  {
    var components := dirs + [stem + ".go"];
    var file := stem + ".go";
    assert |file| > 1;
    assert forall c :: c in file ==> c in stem || c in ".go";
    forall k | 0 <= k < |components|
      ensures components[k] != "" && components[k] != "." && '/' !in components[k]
    {
      if k < |dirs| {
        assert components[k] == dirs[k];
      } else {
        assert components[k] == file;
      }
    }
  }

  /** A file `stem.go` under relative directories is tagged as Go and named after its first directory. */
  lemma GoFileEnrichment(dirs: seq<string>, stem: string, metadata: map<string, Value>, text: string)
    requires |dirs| > 0
    requires forall k :: 0 <= k < |dirs| ==> dirs[k] != "" && dirs[k] != "." && '/' !in dirs[k]
    requires stem != "" && '/' !in stem
    requires FilePathOf(metadata) == Str(Join(dirs + [stem + ".go"], "/"))
    requires "language" !in metadata
    ensures Enrichment(metadata, text).Success?
    ensures Enrichment(metadata, text).value["language"] == Str("go")
    ensures Enrichment(metadata, text).value["repo_name"] == Str(dirs[0])
  {
    var path := Join(dirs + [stem + ".go"], "/");
    GoFilePath(dirs, stem);
    FreshEnrichment(metadata, text, path);
  }

  /** A document without a language, at a path with parts: both entries come from the path. */
  lemma FreshEnrichment(metadata: map<string, Value>, text: string, path: string)
    requires FilePathOf(metadata) == Str(path) && "language" !in metadata && |Parts(path)| > 0
    ensures Enrichment(metadata, text).Success?
    ensures Enrichment(metadata, text).value["language"] == Str(LanguageOf(Suffix(path)))
    ensures Enrichment(metadata, text).value["repo_name"] == Str(Parts(path)[0])
  {
  }

  /** The path `dir/.../stem.go` has the first directory as its first part and ".go" as its suffix. */
  lemma GoFilePath(dirs: seq<string>, stem: string)
    requires |dirs| > 0
    requires forall k :: 0 <= k < |dirs| ==> dirs[k] != "" && dirs[k] != "." && '/' !in dirs[k]
    requires stem != "" && '/' !in stem
    ensures |Parts(Join(dirs + [stem + ".go"], "/"))| > 0
    ensures Parts(Join(dirs + [stem + ".go"], "/"))[0] == dirs[0]
    ensures Suffix(Join(dirs + [stem + ".go"], "/")) == ".go"
  {
    var components := dirs + [stem + ".go"];
    GoFileComponents(dirs, stem);
    RelativePathParts(components);
    GoNameSuffix(stem);
    assert components[|components| - 1] == stem + ".go";
  }

  /** Enriching a Go chunk keeps its language "go" and its path: the chunk already carries both. */
  lemma ChunkEnrichment(root: Node, code: string, filePath: string, k: nat, text: string)
    requires k < |Extracted(root, code, filePath)|
    ensures Enrichment(Extracted(root, code, filePath)[k].metadata, text).Success?
    ensures "file_path" in Enrichment(Extracted(root, code, filePath)[k].metadata, text).value
    ensures Enrichment(Extracted(root, code, filePath)[k].metadata, text).value["language"] == Str("go")
    ensures Enrichment(Extracted(root, code, filePath)[k].metadata, text).value["file_path"] == Str(filePath)
  {
    ExtractedFacts(root, code, filePath);
    var node := Declarations(GoParser.Traverse(root, []))[k];
    var metadata := Extracted(root, code, filePath)[k].metadata;
    ChunkOfFacts(node, code, filePath, PackageName(root, code));
    assert FilePathOf(metadata) == Str(filePath);
    EnrichmentFacts(metadata, text);
  }
}
