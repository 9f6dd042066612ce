/**
 * Extraction of Go functions and methods from a tree-sitter syntax tree
 * (src/parser.py). The tree comes from the tree-sitter parser, which this
 * model does not contain: it is an input. Node offsets index the file content
 * directly, so the content is read as one character per byte.
 */
module GoParser {
  import opened Wrappers
  import opened Strings

  /** A syntax-tree node: its grammar kind, byte span, 0-based row span and children. */
  datatype Node = Node(kind: string, startByte: nat, endByte: nat, startRow: nat, endRow: nat, children: seq<Node>)

  /**
   * A node as the traversal reaches it, with the siblings that precede it in its
   * parent (nearest last). `node.prev_sibling` is the last of `before`, and the
   * root has none.
   */
  datatype Visit = Visit(node: Node, before: seq<Node>)

  /** An extracted function (the `GoFunction` record). Lines are 1-based. */
  datatype GoFunction = GoFunction(
    name: string,
    signature: string,
    body: string,
    fullCode: string,
    docstring: Option<string>,
    filePath: string,
    startLine: nat,
    endLine: nat,
    receiver: Option<string>)

  const FunctionDeclaration := "function_declaration"
  const MethodDeclaration := "method_declaration"

  predicate IsDeclaration(kind: string) {
    kind == FunctionDeclaration || kind == MethodDeclaration
  }

  /** `content[node.start_byte:node.end_byte]`. */
  function Text(content: string, n: Node): string {
    Slice(content, n.startByte, n.endByte)
  }

  /** The number of nodes in a tree. */
  function Size(n: Node): nat
    decreases n, 1
  {
    1 + ChildrenSize(n, 0)
  }

  function ChildrenSize(parent: Node, i: nat): nat
    requires i <= |parent.children|
    decreases parent, 0, |parent.children| - i
  {
    if i == |parent.children| then 0 else Size(parent.children[i]) + ChildrenSize(parent, i + 1)
  }

  /** `_traverse`: the node itself, then the traversal of each child in order (pre-order). */
  function Traverse(n: Node, before: seq<Node>): (r: seq<Visit>)
    ensures |r| == Size(n)
    ensures r[0] == Visit(n, before)
    decreases n, 1
  {
    [Visit(n, before)] + TraverseFrom(n, 0)
  }

  /** The traversals of `parent`'s children from the `i`-th on, each child paired with its preceding siblings. */
  function TraverseFrom(parent: Node, i: nat): (r: seq<Visit>)
    requires i <= |parent.children|
    ensures |r| == ChildrenSize(parent, i)
    decreases parent, 0, |parent.children| - i
  {
    if i == |parent.children| then []
    else Traverse(parent.children[i], parent.children[..i]) + TraverseFrom(parent, i + 1)
  }

  /** Every child is visited, and visited with exactly the siblings that precede it. */
  lemma {:induction false} ChildVisited(n: Node, before: seq<Node>, i: nat)
    requires i < |n.children|
    ensures Visit(n.children[i], n.children[..i]) in Traverse(n, before)
  {
    ChildVisitedFrom(n, 0, i);
  }

  lemma {:induction false} ChildVisitedFrom(parent: Node, from: nat, i: nat)
    requires from <= i < |parent.children|
    ensures Visit(parent.children[i], parent.children[..i]) in TraverseFrom(parent, from)
    decreases i - from
  {
    var here := Traverse(parent.children[from], parent.children[..from]);
    assert TraverseFrom(parent, from) == here + TraverseFrom(parent, from + 1);
    if from == i {
      assert here[0] == Visit(parent.children[i], parent.children[..i]);
    } else {
      ChildVisitedFrom(parent, from + 1, i);
    }
  }

  /** The node reached from a visit by following child positions, with the siblings before it; `None` off the tree. */
  function Descend(v: Visit, path: seq<nat>): Option<Visit>
    decreases |path|
  {
    if |path| == 0 then Some(v)
    else if path[0] < |v.node.children| then
      Descend(Visit(v.node.children[path[0]], v.node.children[..path[0]]), path[1..])
    else None
  }

  /** Every node of the tree, however deep, is visited, with exactly the siblings that precede it. */
  lemma {:induction false} DescendantVisited(n: Node, before: seq<Node>, path: seq<nat>)
    requires Descend(Visit(n, before), path).Some?
    ensures Descend(Visit(n, before), path).value in Traverse(n, before)
    decreases |path|
  {
    if |path| == 0 {
      assert Traverse(n, before)[0] == Visit(n, before);
    } else {
      var i := path[0];
      DescendantVisited(n.children[i], n.children[..i], path[1..]);
      SubtreeVisited(n, before, i);
    }
  }

  /** The traversal of a child lies inside the traversal of its parent. */
  lemma SubtreeVisited(n: Node, before: seq<Node>, i: nat)
    requires i < |n.children|
    ensures forall v :: v in Traverse(n.children[i], n.children[..i]) ==> v in Traverse(n, before)
  {
    SubtreeInFrom(n, 0, i);
  }

  lemma {:induction false} SubtreeInFrom(parent: Node, from: nat, i: nat)
    requires from <= i < |parent.children|
    ensures forall v :: v in Traverse(parent.children[i], parent.children[..i]) ==> v in TraverseFrom(parent, from)
    decreases i - from
  {
    var here := Traverse(parent.children[from], parent.children[..from]);
    assert TraverseFrom(parent, from) == here + TraverseFrom(parent, from + 1);
    if from < i {
      SubtreeInFrom(parent, from + 1, i);
    }
  }

  /** The position of the first child of the given kind, as the `for child in node.children` searches find it. */
  function FirstOfKind(children: seq<Node>, kind: string): (r: Option<nat>)
    ensures r.Some? ==> r.value < |children| && children[r.value].kind == kind
    ensures r.Some? ==> forall j :: 0 <= j < r.value ==> children[j].kind != kind
    ensures r.None? <==> forall j :: 0 <= j < |children| ==> children[j].kind != kind
  {
    if |children| == 0 then None
    else if children[0].kind == kind then Some(0)
    else match FirstOfKind(children[1..], kind)
      case None => None
      case Some(j) => Some(j + 1)
  }

  /** `_get_function_name`: the text of the first `identifier` child, if there is one. */
  function FunctionName(n: Node, content: string): Option<string> {
    match FirstOfKind(n.children, "identifier")
    case None => None
    case Some(j) => Some(Text(content, n.children[j]))
  }

  /** A name exists exactly when some child is an `identifier`, and it is the text of the first such child. */
  lemma FunctionNameFacts(n: Node, content: string)
    ensures FunctionName(n, content).None? <==> forall j :: 0 <= j < |n.children| ==> n.children[j].kind != "identifier"
    ensures FunctionName(n, content).Some? ==>
              exists j :: 0 <= j < |n.children| && n.children[j].kind == "identifier"
                          && FunctionName(n, content).value == Text(content, n.children[j])
                          && forall m :: 0 <= m < j ==> n.children[m].kind != "identifier"
  {
  }

  /** `_get_receiver`: only a method declaration has one, the text of its first `parameter_list` child. */
  function Receiver(n: Node, content: string): Option<string> {
    if n.kind != MethodDeclaration then None
    else match FirstOfKind(n.children, "parameter_list")
      case None => None
      case Some(j) => Some(Text(content, n.children[j]))
  }

  /**
   * A receiver exists exactly for a method declaration with a `parameter_list`
   * child, and it is the text of the first such child.
   */
  lemma ReceiverFacts(n: Node, content: string)
    ensures Receiver(n, content).Some? <==>
              n.kind == MethodDeclaration && exists j :: 0 <= j < |n.children| && n.children[j].kind == "parameter_list"
    ensures Receiver(n, content).Some? ==>
              exists j :: 0 <= j < |n.children| && n.children[j].kind == "parameter_list"
                          && Receiver(n, content).value == Text(content, n.children[j])
                          && forall m :: 0 <= m < j ==> n.children[m].kind != "parameter_list"
  {
  }

  /** The offset where the signature ends: the first newline at or after the node start, else the node end. */
  function SignatureEnd(content: string, n: Node): nat {
    match FindFrom(content, "\n", n.startByte)
    case Some(i) => i
    case None => n.endByte
  }

  /** Text between two offsets that contains no newline. */
  lemma NoNewlineBetween(content: string, a: nat, b: nat)
    requires forall j :: a <= j < b ==> !OccursAt(content, "\n", j)
    ensures '\n' !in Slice(content, a, b)
  {
    var r := Slice(content, a, b);
    forall k | 0 <= k < |r|
      ensures r[k] != '\n'
    {
      assert r[k] == content[a + k];
      assert content[a + k..a + k + 1] == [content[a + k]];
      assert !OccursAt(content, "\n", a + k);
    }
  }

  /**
   * The signature: the stripped first line of the declaration. It never
   * contains a newline, and when the line ends inside the file it is the
   * stripped text from the node start to that newline.
   */
  function Signature(content: string, n: Node): string {
    Strip(Slice(content, n.startByte, SignatureEnd(content, n)))
  }

  /** The signature is one line of the file: it holds no newline and only characters of the content. */
  lemma SignatureOneLine(content: string, n: Node)
    ensures '\n' !in Signature(content, n)
    ensures forall c :: c in Signature(content, n) ==> c in content
    ensures forall i :: n.startByte <= i < |content| && content[i] == '\n'
                        && (forall j :: n.startByte <= j < i ==> content[j] != '\n')
                        ==> Signature(content, n) == Strip(content[n.startByte..i])
  {
    SignatureFacts(content, n);
    var line := Slice(content, n.startByte, SignatureEnd(content, n));
    forall c | c in Signature(content, n) ensures c in content {
      assert c in line;
    }
  }

  lemma SignatureFacts(content: string, n: Node)
    ensures '\n' !in Slice(content, n.startByte, SignatureEnd(content, n))
    ensures forall i :: n.startByte <= i < |content| && content[i] == '\n'
                        && (forall j :: n.startByte <= j < i ==> content[j] != '\n')
                        ==> SignatureEnd(content, n) == i
  {
    match FindFrom(content, "\n", n.startByte) {
      case Some(f) => NoNewlineBetween(content, n.startByte, f);
      case None => NoNewlineBetween(content, n.startByte, n.endByte);
    }
    forall i | n.startByte <= i < |content| && content[i] == '\n'
               && (forall j :: n.startByte <= j < i ==> content[j] != '\n')
      ensures SignatureEnd(content, n) == i
    {
      FirstChar(content, '\n', n.startByte, i);
    }
  }

  /**
   * The body: from the first `{` at or after the node start to the node end,
   * or the full code when the file has no such brace. When the brace lies
   * inside a node that lies inside the file, the full code is the brace-free
   * text before it followed by the body.
   */
  function Body(content: string, n: Node): string {
    match FindFrom(content, "{", n.startByte)
    case Some(b) => Slice(content, b, n.endByte)
    case None => Text(content, n)
  }

  /**
   * Without a `{` after the node start the body is the full code; with one
   * inside the node (and the node inside the file), the body starts with that
   * brace and the full code is the brace-free text before it followed by the body.
   */
  lemma BodyFromBrace(content: string, n: Node)
    ensures (forall j :: n.startByte <= j < |content| ==> content[j] != '{') ==> Body(content, n) == Text(content, n)
    ensures forall b :: n.startByte <= b < n.endByte <= |content| && content[b] == '{'
                        && (forall j :: n.startByte <= j < b ==> content[j] != '{')
                        ==> |Body(content, n)| > 0 && Body(content, n)[0] == '{'
                            && Text(content, n) == content[n.startByte..b] + Body(content, n)
  {
    BodyFacts(content, n);
    if FindFrom(content, "{", n.startByte).Some? {
      var b := FindFrom(content, "{", n.startByte).value;
      assert content[b..b + 1] == "{";
    }
  }

  lemma BodyFacts(content: string, n: Node)
    ensures forall b :: n.startByte <= b < n.endByte <= |content| && content[b] == '{'
                        && (forall j :: n.startByte <= j < b ==> content[j] != '{')
                        ==> FindFrom(content, "{", n.startByte) == Some(b)
                            && Text(content, n) == content[n.startByte..b] + content[b..n.endByte]
  {
    forall b | n.startByte <= b < n.endByte <= |content| && content[b] == '{'
               && (forall j :: n.startByte <= j < b ==> content[j] != '{')
      ensures FindFrom(content, "{", n.startByte) == Some(b)
      ensures Text(content, n) == content[n.startByte..b] + content[b..n.endByte]
    {
      FirstChar(content, '{', n.startByte, b);
      assert content[n.startByte..n.endByte] == content[n.startByte..b] + content[b..n.endByte];
    }
  }

  /** The first occurrence of a character at or after `start` is the one `find` reports. */
  lemma FirstChar(content: string, c: char, start: nat, b: nat)
    requires start <= b < |content| && content[b] == c
    requires forall j :: start <= j < b ==> content[j] != c
    ensures FindFrom(content, [c], start) == Some(b)
  {
    assert content[b..b + 1] == [c];
    assert OccursAt(content, [c], b);
    var f := FindFrom(content, [c], start);
    if f.Some? {
      assert content[f.value..f.value + 1] == [c];
      assert content[f.value] == c;
    }
  }

  /**
   * Where the run of `comment` siblings ending just before position `k` starts:
   * the walk back over `prev_sibling` stops at the first non-comment.
   */
  function RunStart(before: seq<Node>, k: nat): (s: nat)
    requires k <= |before|
    ensures s <= k
    ensures forall j :: s <= j < k ==> before[j].kind == "comment"
    ensures s > 0 ==> before[s - 1].kind != "comment"
  {
    if k > 0 && before[k - 1].kind == "comment" then RunStart(before, k - 1) else k
  }

  /**
   * The contiguous run of `comment` siblings immediately before a node, in
   * source order: the longest suffix of `before` made of comments.
   */
  function CommentRun(before: seq<Node>): (r: seq<Node>)
    ensures |r| <= |before| && r == before[|before| - |r|..]
    ensures forall k :: 0 <= k < |r| ==> r[k].kind == "comment"
    ensures |r| < |before| ==> before[|before| - |r| - 1].kind != "comment"
  {
    before[RunStart(before, |before|)..]
  }

  function Texts(nodes: seq<Node>, content: string): (r: seq<string>)
    ensures |r| == |nodes| && forall k :: 0 <= k < |nodes| ==> r[k] == Text(content, nodes[k])
  {
    seq(|nodes|, k requires 0 <= k < |nodes| => Text(content, nodes[k]))
  }

  lemma TextsCons(x: Node, rest: seq<Node>, content: string)
    ensures Texts([x] + rest, content) == [Text(content, x)] + Texts(rest, content)
  {
    assert forall k :: 0 < k <= |rest| ==> ([x] + rest)[k] == rest[k - 1];
  }

  /** The docstring: the comment run's texts joined by newlines, or `None` when there is no such run. */
  function DocstringOf(before: seq<Node>, content: string): Option<string> {
    var run := CommentRun(before);
    if |run| == 0 then None else Some(Join(Texts(run, content), "\n"))
  }

  /** One step of the walk back: the comment before position `k` joins the front of the run. */
  lemma CommentStep(before: seq<Node>, k: nat, content: string)
    requires 0 < k <= |before|
    ensures Texts(before[k - 1..], content) == [Text(content, before[k - 1])] + Texts(before[k..], content)
  {
    assert before[k - 1..] == [before[k - 1]] + before[k..];
    TextsCons(before[k - 1], before[k..], content);
  }

  /** `_get_docstring`: walks back over the preceding comment siblings, prepending each one's text. */
  method GetDocstring(v: Visit, content: string) returns (doc: Option<string>)
    ensures doc == DocstringOf(v.before, content)
  {
    var before := v.before;
    var comments: seq<string> := [];
    var k := |before|;
    while k > 0 && before[k - 1].kind == "comment"
      invariant 0 <= k <= |before|
      invariant comments == Texts(before[k..], content)
      invariant RunStart(before, |before|) == RunStart(before, k)
      decreases k
    {
      CommentStep(before, k, content);
      comments := [Text(content, before[k - 1])] + comments;
      k := k - 1;
    }
    assert before[k..] == CommentRun(before);
    if |comments| > 0 {
      doc := Some(Join(comments, "\n"));
    } else {
      doc := None;
    }
  }

  /**
   * `_extract_function`: a function is produced exactly when the node has a
   * non-empty name; its code, lines, signature, body, docstring and receiver
   * are those of the node.
   */
  function ExtractFunction(v: Visit, content: string, filePath: string): Option<GoFunction> {
    var n := v.node;
    match FunctionName(n, content)
    case None => None
    case Some(name) =>
      if name == "" then None
      else Some(GoFunction(
        name, Signature(content, n), Body(content, n), Text(content, n), DocstringOf(v.before, content),
        filePath, n.startRow + 1, n.endRow + 1, Receiver(n, content)))
  }

  /**
   * A function is produced exactly when the node has a non-empty name. Its
   * code is the node's text, its lines are the node's rows plus one, its
   * signature, body, docstring and receiver are those of the node, and a plain
   * function declaration never has a receiver.
   */
  lemma ExtractFunctionFacts(v: Visit, content: string, filePath: string)
    ensures var r := ExtractFunction(v, content, filePath);
      && (r.Some? <==> FunctionName(v.node, content).Some? && FunctionName(v.node, content).value != "")
      && (r.Some? ==>
            && r.value.name == FunctionName(v.node, content).value
            && r.value.fullCode == Text(content, v.node) && r.value.filePath == filePath
            && r.value.startLine == v.node.startRow + 1 && r.value.endLine == v.node.endRow + 1
            && r.value.signature == Signature(content, v.node) && r.value.body == Body(content, v.node)
            && r.value.docstring == DocstringOf(v.before, content)
            && r.value.receiver == Receiver(v.node, content))
      && (v.node.kind == FunctionDeclaration ==> r.None? || r.value.receiver.None?)
  {
  }

  /** What one visited node contributes to `parse_file`'s result. */
  function Contribution(v: Visit, content: string, filePath: string): seq<GoFunction> {
    if IsDeclaration(v.node.kind) then
      match ExtractFunction(v, content, filePath)
      case Some(f) => [f]
      case None => []
    else []
  }

  /** The functions extracted from a sequence of visits, in visiting order. */
  function Collect(visits: seq<Visit>, content: string, filePath: string): seq<GoFunction> {
    if |visits| == 0 then []
    else Collect(visits[..|visits| - 1], content, filePath) + Contribution(visits[|visits| - 1], content, filePath)
  }

  /** The functions of a file: one per named declaration, in pre-order. */
  function Extracted(root: Node, content: string, filePath: string): seq<GoFunction> {
    Collect(Traverse(root, []), content, filePath)
  }

  /** `parse_file`: loops over the traversal and appends every extracted function. */
  method ParseFile(filePath: string, content: string, root: Node) returns (functions: seq<GoFunction>)
    ensures functions == Extracted(root, content, filePath)
  {
    var visits := Traverse(root, []);
    functions := [];
    var i := 0;
    while i < |visits|
      invariant 0 <= i <= |visits|
      invariant functions == Collect(visits[..i], content, filePath)
    {
      var v := visits[i];
      CollectStep(visits, i, content, filePath);
      ContributionCases(v, content, filePath);
      if v.node.kind in [FunctionDeclaration, MethodDeclaration] {
        var f := ExtractFunction(v, content, filePath);
        if f.Some? {
          functions := functions + [f.value];
        }
      }
      i := i + 1;
    }
    assert visits[..|visits|] == visits;
  }

  lemma ContributionCases(v: Visit, content: string, filePath: string)
    ensures Contribution(v, content, filePath)
            == if v.node.kind in [FunctionDeclaration, MethodDeclaration] && ExtractFunction(v, content, filePath).Some?
               then [ExtractFunction(v, content, filePath).value] else []
  {
  }

  lemma CollectStep(visits: seq<Visit>, i: nat, content: string, filePath: string)
    requires i < |visits|
    ensures Collect(visits[..i + 1], content, filePath)
            == Collect(visits[..i], content, filePath) + Contribution(visits[i], content, filePath)
  {
    assert visits[..i + 1][..i] == visits[..i];
  }

  /** Extraction distributes over concatenation, so the order of the visits is kept. */
  lemma {:induction false} CollectAppend(a: seq<Visit>, b: seq<Visit>, content: string, filePath: string)
    ensures Collect(a + b, content, filePath) == Collect(a, content, filePath) + Collect(b, content, filePath)
    decreases |b|
  {
    if |b| == 0 {
      assert a + b == a;
    } else {
      var b' := b[..|b| - 1];
      assert (a + b)[..|a + b| - 1] == a + b';
      CollectAppend(a, b', content, filePath);
    }
  }

  /** Every extracted function comes from a declaration node that has a name. */
  lemma {:induction false} CollectSound(visits: seq<Visit>, content: string, filePath: string, k: nat)
    requires k < |Collect(visits, content, filePath)|
    ensures exists j :: 0 <= j < |visits| && IsDeclaration(visits[j].node.kind)
                        && ExtractFunction(visits[j], content, filePath) == Some(Collect(visits, content, filePath)[k])
  {
    var init := visits[..|visits| - 1];
    var last := visits[|visits| - 1];
    if k < |Collect(init, content, filePath)| {
      CollectSound(init, content, filePath, k);
      var j :| 0 <= j < |init| && IsDeclaration(init[j].node.kind)
               && ExtractFunction(init[j], content, filePath) == Some(Collect(init, content, filePath)[k]);
      assert visits[j] == init[j];
    } else {
      assert IsDeclaration(last.node.kind);
    }
  }

  /** A named declaration contributes exactly its own function; any other node contributes nothing. */
  lemma {:induction false} CollectSingle(v: Visit, content: string, filePath: string)
    ensures IsDeclaration(v.node.kind) && ExtractFunction(v, content, filePath).Some?
            ==> Collect([v], content, filePath) == [ExtractFunction(v, content, filePath).value]
    ensures !(IsDeclaration(v.node.kind) && ExtractFunction(v, content, filePath).Some?)
            ==> Collect([v], content, filePath) == []
  {
    assert [v][..0] == [];
  }

  /** A file whose tree holds no function or method declaration yields no functions. */
  lemma {:induction false} CollectNoDeclarations(visits: seq<Visit>, content: string, filePath: string)
    requires forall j :: 0 <= j < |visits| ==> !IsDeclaration(visits[j].node.kind)
    ensures Collect(visits, content, filePath) == []
  {
    if |visits| > 0 {
      CollectNoDeclarations(visits[..|visits| - 1], content, filePath);
    }
  }
}
