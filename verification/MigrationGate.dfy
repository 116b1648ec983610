/** The migration gate: an empty list of problems must mean one clean chain. */
module MigrationGate {
  import opened Sequences

  /** What an Alembic file says; an empty revision is a missing one. */
  datatype Parsed = Unreadable | Parsed(revision: string, downRevision: seq<string>)

  datatype File = File(name: string, parsed: Parsed)

  /** A revision of the graph: the file it came from and the revisions it follows. */
  datatype Node = Node(name: string, parents: seq<string>)

  type Graph = map<string, Node>

  datatype Problem =
    | RevisionUnreadable(name: string)
    | NoRevision(name: string)
    | DuplicateRevision(revision: string, first: string, second: string)
    | MissingParent(name: string, parent: string)
    | WrongHeads(heads: seq<string>)
    | HasCycle

  // ---- What a clean chain is ------------------------------------------------------------

  function NonEmpty(items: seq<string>): (kept: seq<string>)
    ensures forall s :: s in kept <==> s in items && s != ""
  {
    if items == [] then []
    else
      assert items == items[..|items| - 1] + [items[|items| - 1]];
      NonEmpty(items[..|items| - 1]) + if items[|items| - 1] != "" then [items[|items| - 1]] else []
  }

  predicate Readable(f: File) { f.parsed.Parsed? && f.parsed.revision != "" }

  predicate Defines(f: File, r: string) { Readable(f) && f.parsed.revision == r }

  predicate Follows(f: File, parent: string) { Readable(f) && parent != "" && parent in f.parsed.downRevision }

  predicate Defined(files: seq<File>, r: string) { exists f :: f in files && Defines(f, r) }

  /** Some file says that revision `a` comes after revision `b`. */
  predicate After(files: seq<File>, a: string, b: string) { exists f :: f in files && Defines(f, a) && Follows(f, b) }

  predicate Chain(files: seq<File>, p: seq<string>) {
    |p| >= 1 && Defined(files, p[0]) && forall i | 0 < i < |p| :: After(files, p[i - 1], p[i])
  }

  predicate IsHead(files: seq<File>, h: string) { Defined(files, h) && !exists f :: f in files && Follows(f, h) }

  predicate AllReadable(files: seq<File>) { forall f | f in files :: Readable(f) }

  predicate NoDuplicates(files: seq<File>) {
    forall i, j | 0 <= i < j < |files| && Readable(files[i]) && Readable(files[j]) ::
      files[i].parsed.revision != files[j].parsed.revision
  }

  ghost predicate AllResolved(files: seq<File>) { forall f, p | f in files && Follows(f, p) :: Defined(files, p) }

  ghost predicate Loops(files: seq<File>) { exists p :: Chain(files, p) && |p| > 1 && p[0] == p[|p| - 1] }

  ghost predicate OneHead(files: seq<File>) {
    && (files != [] ==> exists h :: IsHead(files, h))
    && (forall h, k | IsHead(files, h) && IsHead(files, k) :: h == k)
  }

  /** Every file is readable, no revision is defined twice or missing, nothing loops, one head. */
  ghost predicate Clean(files: seq<File>) {
    AllReadable(files) && NoDuplicates(files) && AllResolved(files) && !Loops(files) && OneHead(files)
  }

  // ---- The graph the gate works on ------------------------------------------------------

  /** The first file that defines a revision wins. */
  function GraphOf(files: seq<File>): Graph {
    if files == [] then map[]
    else
      var g, f := GraphOf(files[..|files| - 1]), files[|files| - 1];
      if Readable(f) && f.parsed.revision !in g
      then g[f.parsed.revision := Node(f.name, NonEmpty(f.parsed.downRevision))]
      else g
  }

  predicate Edge(g: Graph, a: string, b: string) { a in g && b in g && b in g[a].parents }

  predicate Walk(g: Graph, p: seq<string>) { forall i | 0 < i < |p| :: Edge(g, p[i - 1], p[i]) }

  predicate Loop(g: Graph, p: seq<string>) { |p| > 1 && p[0] == p[|p| - 1] && Walk(g, p) }

  ghost predicate Cyclic(g: Graph) { exists p :: Loop(g, p) }

  predicate Referenced(g: Graph, r: string) { exists c :: c in g && r in g[c].parents }

  predicate Closed(g: Graph) { forall r, p | r in g && p in g[r].parents :: p in g }

  lemma {:induction false} GraphKeys(files: seq<File>, r: string)
    ensures r in GraphOf(files) <==> Defined(files, r)
  {
    if files != [] {
      var front, last := files[..|files| - 1], files[|files| - 1];
      assert files == front + [last];
      GraphKeys(front, r);
      if f :| f in front && Defines(f, r) { assert f in files; }
      assert last in files;
      if f :| f in files && Defines(f, r) {
        if f != last { assert f in front; }
      }
    }
  }

  /** Every node of the graph stands for a file. */
  lemma {:induction false} NodeHasFile(files: seq<File>, r: string) returns (f: File)
    requires r in GraphOf(files)
    ensures f in files && Defines(f, r) && GraphOf(files)[r] == Node(f.name, NonEmpty(f.parsed.downRevision))
  {
    var front, last := files[..|files| - 1], files[|files| - 1];
    assert files == front + [last];
    if r in GraphOf(front) {
      f := NodeHasFile(front, r);
      assert f in files;
    } else {
      f := last;
    }
  }

  lemma FileHasNode(files: seq<File>, f: File)
    requires NoDuplicates(files) && f in files && Readable(f)
    ensures f.parsed.revision in GraphOf(files)
    ensures GraphOf(files)[f.parsed.revision] == Node(f.name, NonEmpty(f.parsed.downRevision))
  {
    assert Defines(f, f.parsed.revision);
    GraphKeys(files, f.parsed.revision);
    var g := NodeHasFile(files, f.parsed.revision);
    var i, j :| 0 <= i < |files| && 0 <= j < |files| && files[i] == f && files[j] == g;
    assert i == j;
  }

  lemma EdgesAreAfter(files: seq<File>, a: string, b: string)
    requires NoDuplicates(files)
    ensures Edge(GraphOf(files), a, b) <==> After(files, a, b) && Defined(files, b)
  {
    GraphKeys(files, a);
    GraphKeys(files, b);
    if a in GraphOf(files) {
      var f := NodeHasFile(files, a);
      if Edge(GraphOf(files), a, b) { assert Follows(f, b); }
    }
    if After(files, a, b) {
      var f :| f in files && Defines(f, a) && Follows(f, b);
      FileHasNode(files, f);
    }
  }

  // ---- The colouring search -------------------------------------------------------------

  datatype Colour = Grey | Black

  ghost predicate ParentsBefore(g: Graph, order: seq<string>, i: nat)
    requires i < |order|
  {
    forall b | Edge(g, order[i], b) :: b in order[..i]
  }

  /** A finishing order: every revision comes after the ones it follows. */
  ghost predicate Topological(g: Graph, order: seq<string>) {
    Distinct(order) && forall i | 0 <= i < |order| :: ParentsBefore(g, order, i)
  }

  lemma TopologicalGrows(g: Graph, order: seq<string>, r: string)
    requires Topological(g, order) && r !in order && forall b | Edge(g, r, b) :: b in order
    ensures Topological(g, order + [r])
  {
    var longer := order + [r];
    forall i | 0 <= i < |longer| ensures ParentsBefore(g, longer, i) {
      if i < |order| {
        assert ParentsBefore(g, order, i) && longer[..i] == order[..i];
      } else {
        assert longer[..i] == order;
      }
    }
  }

  lemma WalkGrows(g: Graph, path: seq<string>, r: string)
    requires Walk(g, path) && (path != [] ==> Edge(g, path[|path| - 1], r))
    ensures Walk(g, path + [r])
  {}

  /** An edge back onto the way here closes a loop. */
  lemma BackEdge(g: Graph, here: seq<string>, r: string)
    requires Walk(g, here) && r in here && Edge(g, here[|here| - 1], r)
    ensures Cyclic(g)
  {
    var j :| 0 <= j < |here| && here[j] == r;
    WalkGrows(g, here, r);
    var p := here + [r];
    forall i | 0 < i < |p[j..]| ensures Edge(g, p[j..][i - 1], p[j..][i]) { assert Edge(g, p[j + i - 1], p[j + i]); }
    assert Loop(g, p[j..]);
  }

  /** Grey revisions are the ones on the way from the start to here, black ones are finished. */
  ghost predicate Coloured(g: Graph, state: map<string, Colour>, finished: seq<string>, path: seq<string>) {
    && state.Keys <= g.Keys
    && (forall r :: r in state && state[r] == Grey <==> r in path)
    && (forall r :: r in state && state[r] == Black <==> r in finished)
    && Walk(g, path)
    && Topological(g, finished)
  }

  lemma Entering(g: Graph, state: map<string, Colour>, finished: seq<string>, path: seq<string>, r: string)
    requires Coloured(g, state, finished, path) && r in g && r !in state
    requires path != [] ==> Edge(g, path[|path| - 1], r)
    ensures Coloured(g, state[r := Grey], finished, path + [r])
  {
    WalkGrows(g, path, r);
  }

  lemma Leaving(g: Graph, state: map<string, Colour>, finished: seq<string>, path: seq<string>, r: string)
    requires Coloured(g, state, finished, path + [r]) && r !in path
    requires forall b | Edge(g, r, b) :: b in finished
    ensures Coloured(g, state[r := Black], finished + [r], path)
  {
    assert r in path + [r];
    assert (path + [r])[..|path|] == path;
    assert Walk(g, path) by {
      forall i | 0 < i < |path| ensures Edge(g, path[i - 1], path[i]) {
        assert Edge(g, (path + [r])[i - 1], (path + [r])[i]);
      }
    }
    TopologicalGrows(g, finished, r);
  }

  class Colouring {
    const graph: Graph
    var state: map<string, Colour>
    ghost var finished: seq<string>

    constructor (graph: Graph)
      ensures this.graph == graph && state == map[] && Valid([])
    {
      this.graph := graph;
      state := map[];
      finished := [];
    }

    ghost predicate Valid(path: seq<string>)
      reads this
    {
      Coloured(graph, state, finished, path)
    }

    /** True means a cycle; otherwise everything reachable from `revision` is now black. */
    method Visit(revision: string, ghost path: seq<string>) returns (cyclic: bool)
      requires revision in graph && revision !in state && Valid(path)
      requires path != [] ==> Edge(graph, path[|path| - 1], revision)
      modifies this
      ensures cyclic ==> Cyclic(graph)
      ensures !cyclic ==> Valid(path) && revision in finished
      ensures !cyclic ==> old(finished) <= finished && old(state).Keys <= state.Keys
      decreases graph.Keys - state.Keys
    {
      Entering(graph, state, finished, path, revision);
      assert revision !in path;
      ghost var here := path + [revision];
      state := state[revision := Grey];
      var parents := graph[revision].parents;
      for i := 0 to |parents|
        invariant Valid(here)
        invariant old(state).Keys + {revision} <= state.Keys && old(finished) <= finished
        invariant forall k | 0 <= k < i && parents[k] in graph :: parents[k] in finished
      {
        var parent := parents[i];
        if parent in graph {
          if parent in state && state[parent] == Grey {
            BackEdge(graph, here, parent);
            return true;
          }
          if parent !in state {
            assert Edge(graph, here[|here| - 1], parent);
            var found := Visit(parent, here);
            if found { return true; }
          }
        }
      }
      Leaving(graph, state, finished, path, revision);
      state := state[revision := Black];
      finished := finished + [revision];
      cyclic := false;
    }
  }

  lemma {:induction false} WalksDescend(g: Graph, order: seq<string>, p: seq<string>) returns (first: nat, last: nat)
    requires Topological(g, order) && Walk(g, p) && |p| > 0 && forall r | r in p :: r in order
    ensures first < |order| && last < |order| && order[first] == p[0] && order[last] == p[|p| - 1]
    ensures first >= last + |p| - 1
  {
    assert p[0] in order;
    first :| 0 <= first < |order| && order[first] == p[0];
    if |p| == 1 {
      last := first;
    } else {
      forall i | 0 < i < |p[1..]| ensures Edge(g, p[1..][i - 1], p[1..][i]) { assert Edge(g, p[i], p[i + 1]); }
      var next: nat;
      next, last := WalksDescend(g, order, p[1..]);
      assert Edge(g, p[0], p[1]);
      assert ParentsBefore(g, order, first) && p[1] in order[..first];
      var k :| 0 <= k < first && order[k] == p[1];
      assert k == next;
    }
  }

  /** A finishing order over the whole graph rules out loops. */
  lemma FinishedMeansAcyclic(g: Graph, order: seq<string>)
    requires Topological(g, order) && forall r | r in g :: r in order
    ensures !Cyclic(g)
  {
    if p :| Loop(g, p) {
      forall r | r in p ensures r in order {
        var i :| 0 <= i < |p| && p[i] == r;
        if i > 0 { assert Edge(g, p[i - 1], p[i]); } else { assert Edge(g, p[0], p[1]); }
      }
      var first, last := WalksDescend(g, order, p);
      assert false;
    }
  }

  /** The search over all revisions finds a cycle exactly when there is one. */
  method FindCycle(graph: Graph, revisions: seq<string>) returns (cyclic: bool)
    requires Elements(revisions) == graph.Keys
    ensures cyclic <==> Cyclic(graph)
  {
    var search := new Colouring(graph);
    for i := 0 to |revisions|
      invariant search.graph == graph && search.Valid([])
      invariant forall k | 0 <= k < i :: revisions[k] in search.finished
    {
      assert revisions[i] in Elements(revisions);
      if revisions[i] !in search.state {
        var found := search.Visit(revisions[i], []);
        if found { return true; }
      }
    }
    forall r | r in graph ensures r in search.finished { assert r in Elements(revisions); }
    FinishedMeansAcyclic(graph, search.finished);
    cyclic := false;
  }

  // ---- The problems, one by one ---------------------------------------------------------

  /** What is wrong with file `j` by itself or given the files before it. */
  function ProblemAt(files: seq<File>, j: nat): Option<Problem>
    requires j < |files|
  {
    var f, g := files[j], GraphOf(files[..j]);
    if f.parsed.Unreadable? then Some(RevisionUnreadable(f.name))
    else if f.parsed.revision == "" then Some(NoRevision(f.name))
    else if f.parsed.revision in g
      then Some(DuplicateRevision(f.parsed.revision, g[f.parsed.revision].name, f.name))
    else None
  }

  predicate ReadProblem(files: seq<File>, p: Problem) { exists j :: 0 <= j < |files| && ProblemAt(files, j) == Some(p) }

  predicate MissingIn(g: Graph, name: string, parents: seq<string>, p: Problem) {
    p.MissingParent? && p.name == name && p.parent in parents && p.parent !in g
  }

  predicate MissingAt(g: Graph, r: string, p: Problem) { r in g && MissingIn(g, g[r].name, g[r].parents, p) }

  predicate ParentProblem(g: Graph, p: Problem) { exists r :: r in g && MissingAt(g, r, p) }

  /** The accepted revisions in the order they were read. */
  function Order(files: seq<File>): seq<string> {
    if files == [] then []
    else
      var front, f := files[..|files| - 1], files[|files| - 1];
      Order(front) + if Readable(f) && f.parsed.revision !in GraphOf(front) then [f.parsed.revision] else []
  }

  lemma {:induction false} OrderIsDistinct(files: seq<File>)
    ensures Elements(Order(files)) == GraphOf(files).Keys && Distinct(Order(files))
  {
    if files != [] {
      var front, f := files[..|files| - 1], files[|files| - 1];
      OrderIsDistinct(front);
      if Readable(f) && f.parsed.revision !in GraphOf(front) {
        assert f.parsed.revision !in Elements(Order(front));
        assert Elements(Order(files)) == Elements(Order(front)) + {f.parsed.revision};
      }
    }
  }

  function Heads(g: Graph, order: seq<string>): seq<string> {
    KeepIn(order, set r | r in g && !Referenced(g, r))
  }

  /** What each message claims. */
  ghost predicate Holds(files: seq<File>, p: Problem) {
    var g := GraphOf(files);
    match p
    case WrongHeads(heads) => g != map[] && heads == Heads(g, Order(files)) && |heads| != 1
    case HasCycle => Cyclic(g)
    case _ => ReadProblem(files, p) || ParentProblem(g, p)
  }

  method ReadFiles(files: seq<File>) returns (graph: Graph, order: seq<string>, problems: seq<Problem>)
    ensures graph == GraphOf(files) && order == Order(files)
    ensures forall p :: p in problems <==> ReadProblem(files, p)
  {
    graph, order, problems := map[], [], [];
    for i := 0 to |files|
      invariant graph == GraphOf(files[..i]) && order == Order(files[..i])
      invariant forall p :: p in problems <==> exists j :: 0 <= j < i && ProblemAt(files, j) == Some(p)
    {
      var f := files[i];
      assert files[..i + 1][..i] == files[..i] && files[..i + 1][i] == f;
      ghost var found := ProblemAt(files, i);
      ghost var before := problems;
      if f.parsed.Unreadable? {
        problems := problems + [RevisionUnreadable(f.name)];
      } else if f.parsed.revision == "" {
        problems := problems + [NoRevision(f.name)];
      } else if f.parsed.revision in graph {
        problems := problems + [DuplicateRevision(f.parsed.revision, graph[f.parsed.revision].name, f.name)];
      } else {
        graph := graph[f.parsed.revision := Node(f.name, NonEmpty(f.parsed.downRevision))];
        order := order + [f.parsed.revision];
      }
      assert problems == before + if found.Some? then [found.value] else [];
    }
    assert files[..|files|] == files;
  }

  method CheckParents(graph: Graph, order: seq<string>) returns (problems: seq<Problem>)
    requires Elements(order) == graph.Keys
    ensures forall p :: p in problems <==> ParentProblem(graph, p)
  {
    problems := [];
    for i := 0 to |order|
      invariant forall p :: p in problems <==> exists k :: 0 <= k < i && MissingAt(graph, order[k], p)
    {
      assert order[i] in Elements(order);
      var node := graph[order[i]];
      ghost var before := problems;
      for j := 0 to |node.parents|
        invariant forall p :: p in problems <==> (p in before || MissingIn(graph, node.name, node.parents[..j], p))
      {
        if node.parents[j] !in graph {
          problems := problems + [MissingParent(node.name, node.parents[j])];
        }
      }
      assert node.parents[..|node.parents|] == node.parents;
      assert forall p :: MissingIn(graph, node.name, node.parents, p) <==> MissingAt(graph, order[i], p);
    }
    forall p ensures p in problems <==> ParentProblem(graph, p) {
      if ParentProblem(graph, p) {
        var r :| r in graph && MissingAt(graph, r, p);
        assert r in Elements(order);
        var k :| 0 <= k < |order| && order[k] == r;
      }
      if p in problems {
        var k :| 0 <= k < |order| && MissingAt(graph, order[k], p);
        assert order[k] in graph;
      }
    }
  }

  method CheckHeads(graph: Graph, order: seq<string>) returns (problems: seq<Problem>)
    ensures problems == if graph != map[] && |Heads(graph, order)| != 1 then [WrongHeads(Heads(graph, order))] else []
  {
    var referenced := set c, p | c in graph && p in graph[c].parents :: p;
    var heads := KeepIn(order, graph.Keys - referenced);
    assert graph.Keys - referenced == set r | r in graph && !Referenced(graph, r);
    problems := if graph != map[] && |heads| != 1 then [WrongHeads(heads)] else [];
  }

  lemma MembersOfAll(a: seq<Problem>, b: seq<Problem>, c: seq<Problem>, d: seq<Problem>, p: Problem)
    ensures p in a + b + c + d <==> p in a || p in b || p in c || p in d
  {}

  lemma HoldsByKind(files: seq<File>, p: Problem)
    ensures var g, heads := GraphOf(files), Heads(GraphOf(files), Order(files));
            Holds(files, p) <==> || ReadProblem(files, p)
                                 || ParentProblem(g, p)
                                 || (g != map[] && |heads| != 1 && p == WrongHeads(heads))
                                 || (Cyclic(g) && p == HasCycle)
  {}

  /**
   The gate: every message says something true of the files, every true message is given, and there
   is no message exactly when the files are one clean chain.
   */
  method MigrationProblems(files: seq<File>) returns (problems: seq<Problem>)
    ensures forall p :: p in problems <==> Holds(files, p)
    ensures problems == [] <==> Clean(files)
  {
    var graph, order, unreadable := ReadFiles(files);
    OrderIsDistinct(files);
    var missing := CheckParents(graph, order);
    var heads := CheckHeads(graph, order);
    var cyclic := FindCycle(graph, order);
    var cycles := if cyclic then [HasCycle] else [];
    problems := unreadable + missing + heads + cycles;
    forall p ensures p in problems <==> Holds(files, p) {
      MembersOfAll(unreadable, missing, heads, cycles, p);
      HoldsByKind(files, p);
    }
    NoProblemsMeansClean(files);
    if problems != [] { assert problems[0] in problems; }
  }

  // ---- No problem means clean, and the other way round ----------------------------------

  lemma ReadClean(files: seq<File>)
    ensures (forall p :: !ReadProblem(files, p)) <==> AllReadable(files) && NoDuplicates(files)
  {
    if forall p :: !ReadProblem(files, p) {
      forall f | f in files ensures Readable(f) {
        var j :| 0 <= j < |files| && files[j] == f;
        if !Readable(f) { assert ReadProblem(files, ProblemAt(files, j).value); }
      }
      forall i, j | 0 <= i < j < |files| && Readable(files[i]) && Readable(files[j])
        ensures files[i].parsed.revision != files[j].parsed.revision
      {
        if files[i].parsed.revision == files[j].parsed.revision {
          assert files[..j][i] == files[i] && Defines(files[i], files[j].parsed.revision);
          GraphKeys(files[..j], files[j].parsed.revision);
          assert ReadProblem(files, ProblemAt(files, j).value);
        }
      }
    } else {
      var p :| ReadProblem(files, p);
      var j :| 0 <= j < |files| && ProblemAt(files, j) == Some(p);
      assert files[j] in files;
      if Readable(files[j]) {
        GraphKeys(files[..j], files[j].parsed.revision);
        var f :| f in files[..j] && Defines(f, files[j].parsed.revision);
        var i :| 0 <= i < j && files[..j][i] == f;
        assert files[i] == f;
      }
    }
  }

  lemma ParentsClean(files: seq<File>)
    requires AllReadable(files) && NoDuplicates(files)
    ensures (forall p :: !ParentProblem(GraphOf(files), p)) <==> AllResolved(files)
  {
    var g := GraphOf(files);
    if forall p :: !ParentProblem(g, p) {
      forall f, p | f in files && Follows(f, p) ensures Defined(files, p) {
        FileHasNode(files, f);
        GraphKeys(files, p);
        assert !ParentProblem(g, MissingParent(f.name, p));
      }
    } else {
      var p :| ParentProblem(g, p);
      var r :| r in g && MissingAt(g, r, p);
      var f := NodeHasFile(files, r);
      GraphKeys(files, p.parent);
      assert p.parent in NonEmpty(f.parsed.downRevision);
      assert Follows(f, p.parent);
    }
  }

  lemma LoopsAreChains(files: seq<File>, p: seq<string>)
    requires NoDuplicates(files) && |p| > 1 && p[0] == p[|p| - 1]
    ensures Loop(GraphOf(files), p) <==> Chain(files, p)
  {
    var g := GraphOf(files);
    if Loop(g, p) {
      forall i | 0 < i < |p| ensures After(files, p[i - 1], p[i]) {
        assert Edge(g, p[i - 1], p[i]);
        EdgesAreAfter(files, p[i - 1], p[i]);
      }
      assert Edge(g, p[0], p[1]);
      GraphKeys(files, p[0]);
    }
    if Chain(files, p) {
      forall i | 0 < i < |p| ensures Edge(g, p[i - 1], p[i]) {
        assert After(files, p[i - 1], p[i]);
        if i < |p| - 1 { assert After(files, p[i], p[i + 1]); }
        EdgesAreAfter(files, p[i - 1], p[i]);
      }
    }
  }

  lemma LoopsClean(files: seq<File>)
    requires NoDuplicates(files)
    ensures Cyclic(GraphOf(files)) <==> Loops(files)
  {
    if p :| Loop(GraphOf(files), p) { LoopsAreChains(files, p); }
    if p :| Chain(files, p) && |p| > 1 && p[0] == p[|p| - 1] { LoopsAreChains(files, p); }
  }

  lemma HeadsAreHeads(files: seq<File>, h: string)
    requires AllReadable(files) && NoDuplicates(files)
    ensures h in Heads(GraphOf(files), Order(files)) <==> IsHead(files, h)
  {
    var g := GraphOf(files);
    OrderIsDistinct(files);
    GraphKeys(files, h);
    assert h in Order(files) <==> h in Elements(Order(files));
    if f :| f in files && Follows(f, h) {
      FileHasNode(files, f);
      assert Referenced(g, h);
    }
    if Referenced(g, h) {
      var c :| c in g && h in g[c].parents;
      var f := NodeHasFile(files, c);
      assert Follows(f, h);
    }
  }

  lemma ExactlyOne(heads: seq<string>, P: string -> bool)
    requires Distinct(heads) && forall h :: h in heads <==> P(h)
    ensures |heads| == 1 <==> (exists h :: P(h)) && (forall h, k | P(h) && P(k) :: h == k)
  {
    if |heads| > 1 { assert heads[0] in heads && heads[1] in heads && heads[0] != heads[1]; }
    if |heads| == 1 { assert heads[0] in heads; }
  }

  lemma HeadsClean(files: seq<File>)
    requires AllReadable(files) && NoDuplicates(files)
    ensures (GraphOf(files) == map[] || |Heads(GraphOf(files), Order(files))| == 1) <==> OneHead(files)
  {
    var g, heads := GraphOf(files), Heads(GraphOf(files), Order(files));
    OrderIsDistinct(files);
    KeepInDistinct(Order(files), set r | r in g && !Referenced(g, r));
    forall h ensures h in heads <==> IsHead(files, h) { HeadsAreHeads(files, h); }
    ExactlyOne(heads, h => IsHead(files, h));
    if files != [] {
      FileHasNode(files, files[0]);
    } else {
      assert forall h :: !IsHead(files, h);
    }
  }

  lemma NoProblemSplit(files: seq<File>)
    ensures (forall p :: !Holds(files, p))
            <==> && (forall p :: !ReadProblem(files, p))
                 && (forall p :: !ParentProblem(GraphOf(files), p))
                 && !Cyclic(GraphOf(files))
                 && (GraphOf(files) == map[] || |Heads(GraphOf(files), Order(files))| == 1)
  {
    var g := GraphOf(files);
    assert Cyclic(g) <==> Holds(files, HasCycle);
    assert (g != map[] && |Heads(g, Order(files))| != 1) <==> Holds(files, WrongHeads(Heads(g, Order(files))));
    if p :| ParentProblem(g, p) { assert Holds(files, p); }
    if p :| ReadProblem(files, p) { assert Holds(files, p); }
  }

  lemma NoProblemsMeansClean(files: seq<File>)
    ensures (forall p :: !Holds(files, p)) <==> Clean(files)
  {
    NoProblemSplit(files);
    ReadClean(files);
    if AllReadable(files) && NoDuplicates(files) {
      ParentsClean(files);
      LoopsClean(files);
      HeadsClean(files);
    }
  }

  // ---- What a clean chain gives ---------------------------------------------------------

  /** `h` leads to `r` by following parents. */
  ghost predicate LeadsTo(files: seq<File>, h: string, r: string) {
    exists p :: Chain(files, p) && p[0] == h && p[|p| - 1] == r
  }

  lemma ChainCons(files: seq<File>, c: string, p: seq<string>)
    requires Chain(files, p) && After(files, c, p[0])
    ensures Chain(files, [c] + p)
  {
    var f :| f in files && Defines(f, c) && Follows(f, p[0]);
    var q := [c] + p;
    forall j | 0 < j < |q| ensures After(files, q[j - 1], q[j]) {
      if j > 1 { assert After(files, p[j - 2], p[j - 1]); }
    }
  }

  lemma ChildClosesLoop(files: seq<File>, p: seq<string>, c: string)
    requires Chain(files, p) && After(files, c, p[0]) && c in p
    ensures Loops(files)
  {
    var i :| 0 <= i < |p| && p[i] == c;
    var q := p[..i + 1];
    assert Chain(files, q);
    ChainCons(files, c, q);
    var loop := [c] + q;
    assert loop[|loop| - 1] == q[i] == c;
  }

  /** A revision that is no head has one after it, and a chain can be extended by that one. */
  lemma ChildExtends(files: seq<File>, p: seq<string>) returns (c: string)
    requires !Loops(files) && Chain(files, p) && Distinct(p) && !IsHead(files, p[0])
    ensures Chain(files, [c] + p) && Distinct([c] + p)
  {
    var f :| f in files && Follows(f, p[0]);
    c := f.parsed.revision;
    assert Defines(f, c);
    ChainCons(files, c, p);
    if c in p { ChildClosesLoop(files, p, c); }
  }

  /** From any chain one can climb to a head. */
  lemma {:induction false} Climb(files: seq<File>, p: seq<string>) returns (h: string)
    requires AllResolved(files) && !Loops(files) && Chain(files, p) && Distinct(p)
    ensures IsHead(files, h) && LeadsTo(files, h, p[|p| - 1])
    decreases |files| - |p|
  {
    ChainIsShort(files, p);
    if IsHead(files, p[0]) {
      h := p[0];
    } else {
      var c := ChildExtends(files, p);
      ChainIsShort(files, [c] + p);
      h := Climb(files, [c] + p);
    }
  }

  /** A chain without repetition is no longer than the list of files. */
  lemma ChainIsShort(files: seq<File>, p: seq<string>)
    requires AllResolved(files) && Chain(files, p) && Distinct(p)
    ensures |p| <= |files|
  {
    forall i | 0 <= i < |p| ensures p[i] in GraphOf(files) {
      if 0 < i {
        assert After(files, p[i - 1], p[i]);
        var f :| f in files && Defines(f, p[i - 1]) && Follows(f, p[i]);
      }
      GraphKeys(files, p[i]);
    }
    ElementsBound(p);
    SubsetSize(Elements(p), GraphOf(files).Keys);
    GraphSize(files);
  }

  lemma {:induction false} GraphSize(files: seq<File>)
    ensures |GraphOf(files).Keys| <= |files|
  {
    if files != [] { GraphSize(files[..|files| - 1]); }
  }

  /** An empty answer means that every revision is reached from the one head. */
  lemma HeadLeadsToAll(files: seq<File>, f: File, h: string)
    requires Clean(files) && f in files && IsHead(files, h)
    ensures LeadsTo(files, h, f.parsed.revision)
  {
    assert Defines(f, f.parsed.revision);
    var top := Climb(files, [f.parsed.revision]);
  }

  // ---- What each message says of the files ----------------------------------------------

  predicate Carries(f: File, r: string) { f.parsed.Parsed? && f.parsed.revision == r && r != "" }

  /** The first file with its revision. */
  predicate First(files: seq<File>, i: int) {
    && 0 <= i < |files| && files[i].parsed.Parsed? && files[i].parsed.revision != ""
    && forall k | 0 <= k < i :: !Carries(files[k], files[i].parsed.revision)
  }

  lemma {:induction false} FirstIsNode(files: seq<File>, i: nat)
    requires First(files, i)
    ensures files[i].parsed.revision in GraphOf(files)
    ensures GraphOf(files)[files[i].parsed.revision] == Node(files[i].name, NonEmpty(files[i].parsed.downRevision))
    decreases |files|
  {
    var front := files[..|files| - 1];
    if i < |front| {
      FirstIsNode(front, i);
    } else {
      GraphKeys(front, files[i].parsed.revision);
      forall f | f in front ensures !Defines(f, files[i].parsed.revision) {
        var k :| 0 <= k < |front| && front[k] == f;
        assert !Carries(files[k], files[i].parsed.revision);
      }
    }
  }

  lemma {:induction false} NodeIsFirst(files: seq<File>, r: string) returns (i: nat)
    requires r in GraphOf(files)
    ensures First(files, i) && files[i].parsed.revision == r
  {
    var front, last := files[..|files| - 1], files[|files| - 1];
    if r in GraphOf(front) {
      i := NodeIsFirst(front, r);
    } else {
      i := |front|;
      forall k | 0 <= k < i ensures !Carries(files[k], r) {
        if Carries(files[k], r) {
          assert front[k] in front && Defines(front[k], r);
          GraphKeys(front, r);
        }
      }
    }
  }

  predicate Repeats(files: seq<File>, r: string, first: string, second: string, i: int, j: int) {
    0 <= i < j < |files| && First(files, i) && files[i].parsed.revision == r && files[i].name == first
    && Carries(files[j], r) && files[j].name == second
  }

  predicate Misses(files: seq<File>, name: string, parent: string, i: int) {
    && First(files, i) && files[i].name == name && parent != "" && parent in files[i].parsed.downRevision
    && forall k | 0 <= k < |files| :: !Carries(files[k], parent)
  }

  /** What the reader of a message takes from it. */
  ghost predicate Means(files: seq<File>, p: Problem) {
    match p
    case RevisionUnreadable(name) => exists j :: 0 <= j < |files| && files[j].parsed.Unreadable? && files[j].name == name
    case NoRevision(name) => exists j :: 0 <= j < |files| && files[j].parsed.Parsed? && files[j].parsed.revision == "" && files[j].name == name
    case DuplicateRevision(r, first, second) => exists i, j :: Repeats(files, r, first, second, i, j)
    case MissingParent(name, parent) => exists i :: Misses(files, name, parent, i)
    case _ => true
  }

  lemma CarriedIsDefined(files: seq<File>, r: string)
    requires r != ""
    ensures r in GraphOf(files) <==> exists k :: 0 <= k < |files| && Carries(files[k], r)
  {
    GraphKeys(files, r);
    if f :| f in files && Defines(f, r) {
      var k :| 0 <= k < |files| && files[k] == f;
      assert Carries(files[k], r);
    }
    if k :| 0 <= k < |files| && Carries(files[k], r) { assert files[k] in files && Defines(files[k], r); }
  }

  lemma FirstInFront(files: seq<File>, i: nat, j: nat)
    requires i < j <= |files|
    ensures First(files[..j], i) <==> First(files, i)
  {}

  lemma DuplicateMeans(files: seq<File>, r: string, first: string, second: string)
    ensures ReadProblem(files, DuplicateRevision(r, first, second))
            <==> exists i, j :: Repeats(files, r, first, second, i, j)
  {
    if ReadProblem(files, DuplicateRevision(r, first, second)) {
      var j :| 0 <= j < |files| && ProblemAt(files, j) == Some(DuplicateRevision(r, first, second));
      var i := NodeIsFirst(files[..j], r);
      FirstIsNode(files[..j], i);
      FirstInFront(files, i, j);
      assert Repeats(files, r, first, second, i, j);
    }
    if i, j :| Repeats(files, r, first, second, i, j) {
      FirstInFront(files, i, j);
      FirstIsNode(files[..j], i);
      assert ProblemAt(files, j) == Some(DuplicateRevision(r, first, second));
    }
  }

  lemma MissingMeans(files: seq<File>, name: string, parent: string)
    ensures ParentProblem(GraphOf(files), MissingParent(name, parent)) <==> exists i :: Misses(files, name, parent, i)
  {
    var g, p := GraphOf(files), MissingParent(name, parent);
    if parent != "" { CarriedIsDefined(files, parent); }
    if ParentProblem(g, p) {
      var r :| r in g && MissingAt(g, r, p);
      var i := NodeIsFirst(files, r);
      FirstIsNode(files, i);
      assert Misses(files, name, parent, i);
    }
    if i :| Misses(files, name, parent, i) {
      FirstIsNode(files, i);
      assert MissingAt(g, files[i].parsed.revision, p);
    }
  }

  /** Every message of the first four kinds is given exactly when it is so of the files. */
  lemma MessagesMean(files: seq<File>, p: Problem)
    requires !p.WrongHeads? && !p.HasCycle?
    ensures Holds(files, p) <==> Means(files, p)
  {
    match p
    case RevisionUnreadable(name) =>
      if j :| 0 <= j < |files| && files[j].parsed.Unreadable? && files[j].name == name { assert ProblemAt(files, j) == Some(p); }
    case NoRevision(name) =>
      if j :| 0 <= j < |files| && files[j].parsed.Parsed? && files[j].parsed.revision == "" && files[j].name == name {
        assert ProblemAt(files, j) == Some(p);
      }
    case DuplicateRevision(r, first, second) => DuplicateMeans(files, r, first, second);
    case MissingParent(name, parent) => MissingMeans(files, name, parent);
  }

  /** Defined by some file, and no file whose revision counts follows it. */
  predicate Topmost(files: seq<File>, r: string) {
    && (exists k :: 0 <= k < |files| && Carries(files[k], r))
    && forall i | 0 <= i < |files| && First(files, i) :: r !in files[i].parsed.downRevision
  }

  /** The message about heads lists exactly the topmost revisions, each once, and says that they are not one. */
  lemma HeadsMean(files: seq<File>, heads: seq<string>)
    requires Holds(files, WrongHeads(heads))
    ensures |heads| != 1 && Distinct(heads) && forall r :: r in heads <==> Topmost(files, r)
  {
    var g := GraphOf(files);
    OrderIsDistinct(files);
    KeepInDistinct(Order(files), set r | r in g && !Referenced(g, r));
    forall r ensures r in heads <==> Topmost(files, r) {
      assert r in heads <==> r in Elements(Order(files)) && r in g && !Referenced(g, r);
      TopmostIff(files, r);
    }
  }

  lemma TopmostIff(files: seq<File>, r: string)
    ensures r in GraphOf(files) && !Referenced(GraphOf(files), r) <==> Topmost(files, r)
  {
    var g := GraphOf(files);
    if r in g {
      var i := NodeIsFirst(files, r);
      assert Carries(files[i], r);
    }
    if k :| 0 <= k < |files| && Carries(files[k], r) { CarriedIsDefined(files, r); }
    if Referenced(g, r) {
      var c :| c in g && r in g[c].parents;
      var i := NodeIsFirst(files, c);
      FirstIsNode(files, i);
      assert r in files[i].parsed.downRevision;
    }
    if r in g {
      GraphKeys(files, r);
      forall i | 0 <= i < |files| && First(files, i) && r in files[i].parsed.downRevision ensures Referenced(g, r) {
        FirstIsNode(files, i);
      }
    }
  }
}
