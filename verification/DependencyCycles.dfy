/** Depth-first cycle detection over the requirement graph of the
    production-readiness register: three colours, an explicit stack of grey
    nodes and a list of reported cycles. */
module DependencyCycles {
  import opened Base

  type Node = string
  /** Markers 1 and 2; an unvisited node has no marker. */
  datatype Colour = Grey | Black
  type Graph = map<Node, seq<Node>>

  /** `v` is listed by `u` and is itself a requirement of the register. */
  predicate Edge(graph: Graph, u: Node, v: Node) {
    u in graph && v in graph && v in graph[u]
  }

  /** Every node of `path` depends directly on the next one. */
  predicate IsPath(graph: Graph, path: seq<Node>) {
    |path| >= 2 ==> Edge(graph, path[0], path[1]) && IsPath(graph, path[1..])
  }

  predicate IsClosedPath(graph: Graph, path: seq<Node>) {
    |path| >= 2 && path[0] == path[|path| - 1] && IsPath(graph, path)
  }

  ghost predicate Acyclic(graph: Graph) {
    forall path :: !IsClosedPath(graph, path)
  }

  predicate Distinct(s: seq<Node>) {
    forall i, j :: 0 <= i < j < |s| ==> s[i] != s[j]
  }

  /** Position of a node in a list that holds it. */
  function IndexOf(s: seq<Node>, x: Node): (i: nat)
    requires x in s
    ensures i < |s| && s[i] == x
  {
    if s[0] == x then 0 else 1 + IndexOf(s[1..], x)
  }

  /** The nodes of `order` depend only on nodes that stand earlier in it. */
  ghost predicate Topological(graph: Graph, order: seq<Node>) {
    Distinct(order) &&
    forall i, v :: 0 <= i < |order| && Edge(graph, order[i], v) ==> v in order[..i]
  }

  lemma {:induction false} PathAppend(graph: Graph, path: seq<Node>, v: Node)
    requires IsPath(graph, path) && path != [] && Edge(graph, path[|path| - 1], v)
    ensures IsPath(graph, path + [v])
  {
    if |path| >= 2 {
      PathAppend(graph, path[1..], v);
      assert (path + [v])[1..] == path[1..] + [v];
    }
  }

  lemma {:induction false} PathDrop(graph: Graph, path: seq<Node>, n: nat)
    requires IsPath(graph, path) && n <= |path|
    ensures IsPath(graph, path[n..])
  {
    if n > 0 {
      PathDrop(graph, path[1..], n - 1);
      assert path[1..][n - 1..] == path[n..];
    }
  }

  lemma {:induction false} PathTake(graph: Graph, path: seq<Node>, n: nat)
    requires IsPath(graph, path) && n <= |path|
    ensures IsPath(graph, path[..n])
  {
    if n >= 2 {
      PathTake(graph, path[1..], n - 1);
      assert path[..n][1..] == path[1..][..n - 1];
    }
  }

  /** Along a path that starts at position `at` of a topological order, every
      later node stands strictly earlier. */
  lemma {:induction false} PathDescends(graph: Graph, order: seq<Node>, path: seq<Node>, at: nat)
    requires Topological(graph, order) && IsPath(graph, path)
    requires |path| >= 2 && at < |order| && order[at] == path[0]
    ensures path[|path| - 1] in order[..at]
  {
    assert Edge(graph, path[0], path[1]);
    var next := IndexOf(order[..at], path[1]);
    if |path| > 2 {
      PathDescends(graph, order, path[1..], next);
      assert order[..next] <= order[..at];
    }
  }

  /** A topological order of all the nodes rules every closed path out. */
  lemma {:induction false} TopologicalIsAcyclic(graph: Graph, order: seq<Node>)
    requires Topological(graph, order)
    requires forall u :: u in graph ==> u in order
    ensures Acyclic(graph)
  {
    forall path | IsClosedPath(graph, path) ensures false {
      assert Edge(graph, path[0], path[1]);
      var at := IndexOf(order, path[0]);
      PathDescends(graph, order, path, at);
    }
  }

  // ----- how often a cycle is reported -----

  /** A closed path that passes no node twice. */
  predicate IsSimpleCycle(graph: Graph, path: seq<Node>) {
    IsClosedPath(graph, path) && Distinct(path[..|path| - 1])
  }

  /** The node whose dependency closes a report, and that dependency. */
  function Closer(c: seq<Node>): Node
    requires |c| >= 2
  {
    c[|c| - 2]
  }

  function Closing(c: seq<Node>): Node
    requires |c| >= 2
  {
    c[|c| - 1]
  }

  /** The part of a path from `v` on, closed by `v`. */
  function Loop(path: seq<Node>, v: Node): (c: seq<Node>)
    requires v in path
    ensures |c| >= 2 && Closer(c) == path[|path| - 1] && Closing(c) == v
  {
    path[IndexOf(path, v)..] + [v]
  }

  /** How often the first `n` entries of a list name `v`. */
  function Named(list: seq<Node>, n: nat, v: Node): nat
    requires n <= |list|
  {
    multiset(list[..n])[v]
  }

  lemma NamedNext(list: seq<Node>, n: nat, v: Node)
    requires n < |list|
    ensures Named(list, n + 1, v) == Named(list, n, v) + if list[n] == v then 1 else 0
  {
    assert list[..n + 1] == list[..n] + [list[n]];
  }

  /** A report is made once for each listing of the dependency that closes it. */
  ghost predicate Exact(graph: Graph, cycles: seq<seq<Node>>, c: seq<Node>) {
    |c| >= 2 && Closer(c) in graph && multiset(cycles)[c] == multiset(graph[Closer(c)])[Closing(c)]
  }

  /** Reports are closed by visited nodes; those closed by finished nodes are complete. */
  ghost predicate Counted(graph: Graph, state: map<Node, Colour>, cycles: seq<seq<Node>>) {
    forall c :: c in cycles ==>
        |c| >= 2 && Closer(c) in state && (state[Closer(c)] == Black ==> Exact(graph, cycles, c))
  }

  /** After `n` dependencies of the node on top of the stack, its reports are the
      loops of the stack, one for each grey dependency named so far. */
  ghost predicate Scanned(stack: seq<Node>, cycles: seq<seq<Node>>, list: seq<Node>, n: nat) {
    && stack != [] && n <= |list|
    && (forall c :: c in cycles && |c| >= 2 && Closer(c) == stack[|stack| - 1] ==>
          Closing(c) in stack && c == Loop(stack, Closing(c)))
    && (forall v :: v in stack ==> multiset(cycles)[Loop(stack, v)] == Named(list, n, v))
  }

  /** The reports from position `from` on are closed by `node` or by newly visited nodes. */
  ghost predicate Newer(cycles: seq<seq<Node>>, from: nat, before: map<Node, Colour>, after: map<Node, Colour>,
                        node: Node) {
    forall k :: from <= k < |cycles| ==>
      |cycles[k]| >= 2 && Closer(cycles[k]) in after && (Closer(cycles[k]) == node || Closer(cycles[k]) !in before)
  }

  lemma ScanStart(stack: seq<Node>, cycles: seq<seq<Node>>, list: seq<Node>)
    requires stack != [] && forall c :: c in cycles ==> |c| >= 2 && Closer(c) != stack[|stack| - 1]
    ensures Scanned(stack, cycles, list, 0)
  {
  }

  /** A dependency that is not grey adds no report. */
  lemma ScanSkip(stack: seq<Node>, cycles: seq<seq<Node>>, list: seq<Node>, n: nat)
    requires Scanned(stack, cycles, list, n) && n < |list| && list[n] !in stack
    ensures Scanned(stack, cycles, list, n + 1)
  {
    hide Loop, Named;
    forall v | v in stack
      ensures multiset(cycles)[Loop(stack, v)] == Named(list, n + 1, v)
    {
      NamedNext(list, n, v);
    }
  }

  /** A grey dependency adds its loop. */
  lemma ScanReport(stack: seq<Node>, cycles: seq<seq<Node>>, list: seq<Node>, n: nat)
    requires Scanned(stack, cycles, list, n) && n < |list| && list[n] in stack
    ensures Scanned(stack, cycles + [Loop(stack, list[n])], list, n + 1)
  {
    hide Loop, Named;
    forall v | v in stack
      ensures multiset(cycles + [Loop(stack, list[n])])[Loop(stack, v)] == Named(list, n + 1, v)
    {
      NamedNext(list, n, v);
    }
  }

  /** Reports closed by other nodes change nothing for this one. */
  lemma ScanOthers(stack: seq<Node>, cycles: seq<seq<Node>>, more: seq<seq<Node>>, list: seq<Node>, n: nat)
    requires Scanned(stack, cycles, list, n)
    requires forall c :: c in more ==> |c| >= 2 && Closer(c) != stack[|stack| - 1]
    ensures Scanned(stack, cycles + more, list, n)
  {
    hide Loop, Named;
    forall v | v in stack
      ensures multiset(cycles + more)[Loop(stack, v)] == Named(list, n, v)
    {
      assert Loop(stack, v) !in more;
    }
  }

  lemma LoopIsReported(stack: seq<Node>, cycles: seq<seq<Node>>, list: seq<Node>, v: Node)
    requires Scanned(stack, cycles, list, |list|) && v in stack && v in list
    ensures Closed(cycles, stack[|stack| - 1], v)
  {
    hide Loop;
    assert list[..|list|] == list && v in multiset(list);
    assert Loop(stack, v) in cycles;
  }

  lemma ScanEnd(graph: Graph, stack: seq<Node>, cycles: seq<seq<Node>>, node: Node)
    requires node in graph && stack != [] && stack[|stack| - 1] == node
             && Scanned(stack, cycles, graph[node], |graph[node]|)
    ensures forall c :: c in cycles && |c| >= 2 && Closer(c) == node ==> Exact(graph, cycles, c)
  {
    hide Loop;
    assert graph[node][..|graph[node]|] == graph[node];
  }

  /** Reports of nodes that are not finished leave the finished ones complete. */
  lemma CountedMore(graph: Graph, state: map<Node, Colour>, cycles: seq<seq<Node>>, c: seq<Node>)
    requires Counted(graph, state, cycles) && |c| >= 2 && Closer(c) in state && state[Closer(c)] == Grey
    ensures Counted(graph, state, cycles + [c])
  {
    forall d | d in cycles + [c] && |d| >= 2 && Closer(d) in state && state[Closer(d)] == Black
      ensures Exact(graph, cycles + [c], d)
    {
      assert d in cycles && d != c;
    }
  }

  /** Some report is closed by the dependency of `u` on `v`. */
  ghost predicate Closed(cycles: seq<seq<Node>>, u: Node, v: Node) {
    exists c :: c in cycles && |c| >= 2 && Closer(c) == u && Closing(c) == v
  }

  /** A dependency of a finished node was finished before it or closes a report. */
  ghost predicate Explained(graph: Graph, finished: seq<Node>, cycles: seq<seq<Node>>) {
    forall i, v :: 0 <= i < |finished| && Edge(graph, finished[i], v) ==>
        v in finished[..i] || Closed(cycles, finished[i], v)
  }

  lemma ExplainedMore(graph: Graph, finished: seq<Node>, cycles: seq<seq<Node>>, more: seq<seq<Node>>)
    requires Explained(graph, finished, cycles)
    ensures Explained(graph, finished, cycles + more)
  {
    forall i, v | 0 <= i < |finished| && Edge(graph, finished[i], v) && v !in finished[..i]
      ensures Closed(cycles + more, finished[i], v)
    {
      ClosedMore(cycles, cycles + more, finished[i], v);
    }
  }

  lemma ClosedMore(cycles: seq<seq<Node>>, longer: seq<seq<Node>>, u: Node, v: Node)
    requires cycles <= longer && Closed(cycles, u, v)
    ensures Closed(longer, u, v)
  {
    var c :| c in cycles && |c| >= 2 && Closer(c) == u && Closing(c) == v;
    assert c in longer;
  }

  lemma ExplainedNext(graph: Graph, finished: seq<Node>, cycles: seq<seq<Node>>, node: Node)
    requires Explained(graph, finished, cycles)
    requires forall v :: Edge(graph, node, v) ==> v in finished || Closed(cycles, node, v)
    ensures Explained(graph, finished + [node], cycles)
  {
    hide Closed;
    var longer := finished + [node];
    forall i, v | 0 <= i < |longer| && Edge(graph, longer[i], v)
      ensures v in longer[..i] || Closed(cycles, longer[i], v)
    {
      assert longer[..i] == finished[..i];
      if i < |finished| { assert longer[i] == finished[i]; } else { assert finished[..i] == finished; }
    }
  }

  // ----- where a report starts -----

  /** The same cycle, begun at another of its nodes. */
  predicate Rotation(c: seq<Node>, d: seq<Node>) {
    |c| >= 2 && |c| == |d| && exists k :: 0 <= k < |c| - 1 && d[..|d| - 1] == c[k..|c| - 1] + c[..k]
  }

  /** No cycle is reported twice, under whatever rotation. */
  ghost predicate OncePerCycle(cycles: seq<seq<Node>>) {
    forall i, j :: 0 <= i < j < |cycles| ==> !Rotation(cycles[i], cycles[j])
  }

  /** A report begins at the node of it that was entered first. */
  ghost predicate Earliest(entered: map<Node, nat>, c: seq<Node>) {
    && |c| >= 2 && (forall k :: 0 <= k < |c| - 1 ==> c[k] in entered)
    && (forall k :: 0 < k < |c| - 1 ==> entered[c[0]] < entered[c[k]])
  }

  ghost predicate Ascending(entered: map<Node, nat>, stack: seq<Node>) {
    && (forall i :: 0 <= i < |stack| ==> stack[i] in entered)
    && (forall i, j :: 0 <= i < j < |stack| ==> entered[stack[i]] < entered[stack[j]])
  }

  /** `entered` numbers the visited nodes in the order in which they were entered. */
  ghost predicate Dated(entered: map<Node, nat>, state: map<Node, Colour>, stack: seq<Node>, cycles: seq<seq<Node>>) {
    && entered.Keys == state.Keys && (forall u :: u in entered ==> entered[u] < |entered|)
    && Ascending(entered, stack)
    && (forall c :: c in cycles ==> Earliest(entered, c))
  }

  lemma DatedEnter(entered: map<Node, nat>, state: map<Node, Colour>, stack: seq<Node>, cycles: seq<seq<Node>>,
                   node: Node)
    requires Dated(entered, state, stack, cycles) && node !in state
    ensures Dated(entered[node := |entered|], state[node := Grey], stack + [node], cycles)
  {
    hide Earliest, Ascending;
    var later := entered[node := |entered|];
    assert later.Keys == entered.Keys + {node};
    assert |later| == |later.Keys| == |entered.Keys + {node}| == |entered| + 1;
    AscendingNext(entered, stack, node);
    forall c | c in cycles
      ensures Earliest(later, c)
    {
      EarliestStays(entered, node, c);
    }
  }

  lemma AscendingNext(entered: map<Node, nat>, stack: seq<Node>, node: Node)
    requires Ascending(entered, stack) && node !in entered && forall u :: u in entered ==> entered[u] < |entered|
    ensures Ascending(entered[node := |entered|], stack + [node])
  {
  }

  lemma EarliestStays(entered: map<Node, nat>, node: Node, c: seq<Node>)
    requires Earliest(entered, c) && node !in entered
    ensures Earliest(entered[node := |entered|], c)
  {
  }

  lemma DatedReport(entered: map<Node, nat>, state: map<Node, Colour>, stack: seq<Node>, cycles: seq<seq<Node>>,
                    node: Node)
    requires Dated(entered, state, stack, cycles) && node in stack
    ensures Dated(entered, state, stack, cycles + [Loop(stack, node)])
  {
    var start, loop := IndexOf(stack, node), Loop(stack, node);
    assert forall k :: 0 <= k < |loop| - 1 ==> loop[k] == stack[start + k];
    assert Earliest(entered, loop);
  }

  lemma DatedFinish(entered: map<Node, nat>, state: map<Node, Colour>, stack: seq<Node>, cycles: seq<seq<Node>>,
                    node: Node)
    requires Dated(entered, state, stack, cycles) && stack != [] && node in state
    ensures Dated(entered, state[node := Black], stack[..|stack| - 1], cycles)
  {
    hide Earliest;
  }

  /** A rotated list begins inside the original, whose beginning it passes later. */
  lemma Rotated(c: seq<Node>, d: seq<Node>, k: nat)
    requires |c| >= 2 && |c| == |d| && k < |c| - 1 && d[..|d| - 1] == c[k..|c| - 1] + c[..k]
    ensures d[0] == c[k] && (k > 0 ==> d[|c| - 1 - k] == c[0])
  {
    var n := |c| - 1;
    assert d[0] == d[..n][0] == c[k];
    assert k > 0 ==> d[n - k] == d[..n][n - k] == c[..k][0];
  }

  /** Two reports of one cycle are the same list. */
  lemma RotationIsSame(entered: map<Node, nat>, c: seq<Node>, d: seq<Node>)
    requires Earliest(entered, c) && Earliest(entered, d) && Rotation(c, d)
    requires c[0] == c[|c| - 1] && d[0] == d[|d| - 1]
    ensures c == d
  {
    var n := |c| - 1;
    var k :| 0 <= k < n && d[..n] == c[k..n] + c[..k];
    assert c == c[..n] + [c[n]] && d == d[..n] + [d[n]];
    assert c[0..n] + c[..0] == c[..n];
    Rotated(c, d, k);
  }

  // ----- when a cycle is reported once -----

  /** How often `u` lists `v`. */
  function Listings(graph: Graph, u: Node, v: Node): nat {
    if u in graph then multiset(graph[u])[v] else 0
  }

  /** The dependency of `u` on `v` lies on a cycle. */
  ghost predicate OnCycle(graph: Graph, u: Node, v: Node) {
    exists path :: IsClosedPath(graph, path) && path[0] == u && path[1] == v
  }

  /** No dependency that lies on a cycle is listed twice. */
  ghost predicate ListedOnce(graph: Graph) {
    forall u, v :: OnCycle(graph, u, v) ==> Listings(graph, u, v) == 1
  }

  /** The closing dependency of a cycle lies on it. */
  lemma ClosingIsOnCycle(graph: Graph, c: seq<Node>)
    requires IsClosedPath(graph, c)
    ensures OnCycle(graph, Closer(c), Closing(c))
  {
    var n := |c| - 1;
    var path := [c[n - 1]] + c[..n];
    LastEdge(graph, c);
    PathTake(graph, c, n);
    assert path[1..] == c[..n];
    assert IsClosedPath(graph, path) && path[0] == Closer(c) && path[1] == Closing(c);
  }

  lemma {:induction false} LastEdge(graph: Graph, path: seq<Node>)
    requires IsPath(graph, path) && |path| >= 2
    ensures Edge(graph, path[|path| - 2], path[|path| - 1])
  {
    if |path| > 2 { LastEdge(graph, path[1..]); }
  }

  lemma Twice<T>(s: seq<T>, i: nat, j: nat)
    requires i < j < |s| && s[i] == s[j]
    ensures multiset(s)[s[i]] >= 2
  {
    assert s == s[..i + 1] + s[i + 1..];
    assert s[i] == s[..i + 1][i] && s[j] == s[i + 1..][j - i - 1];
    assert s[i] in multiset(s[..i + 1]) && s[j] in multiset(s[i + 1..]);
  }

  lemma {:induction false} AtTwoPlaces<T>(s: seq<T>, x: T) returns (i: nat, j: nat)
    requires multiset(s)[x] >= 2
    ensures i < j < |s| && s[i] == s[j] == x
  {
    assert s == [s[0]] + s[1..];
    if s[0] == x {
      assert x in multiset(s[1..]);
      var k :| 0 <= k < |s[1..]| && s[1..][k] == x;
      i, j := 0, k + 1;
    } else {
      i, j := AtTwoPlaces(s[1..], x);
      i, j := i + 1, j + 1;
    }
  }

  /** If no dependency on a cycle is listed twice, no cycle is reported twice. */
  lemma OnceIfListedOnce(graph: Graph, cycles: seq<seq<Node>>, entered: map<Node, nat>)
    requires forall c :: c in cycles ==> IsSimpleCycle(graph, c) && Exact(graph, cycles, c) && Earliest(entered, c)
    requires ListedOnce(graph)
    ensures OncePerCycle(cycles)
  {
    hide Earliest, Rotation, IsPath;
    forall i, j | 0 <= i < j < |cycles|
      ensures !Rotation(cycles[i], cycles[j])
    {
      var c, d := cycles[i], cycles[j];
      assert c in cycles && d in cycles;
      if Rotation(c, d) {
        RotationIsSame(entered, c, d);
        Twice(cycles, i, j);
        ClosingIsOnCycle(graph, c);
        assert false;
      }
    }
  }

  /** If a dependency closes a report and is listed twice, that report is made twice. */
  lemma TwiceIfListedTwice(graph: Graph, cycles: seq<seq<Node>>, u: Node, v: Node)
    requires forall c :: c in cycles ==> Exact(graph, cycles, c)
    requires Closed(cycles, u, v) && Listings(graph, u, v) > 1
    ensures !OncePerCycle(cycles)
  {
    var c :| c in cycles && |c| >= 2 && Closer(c) == u && Closing(c) == v;
    assert Exact(graph, cycles, c);
    var i, j := AtTwoPlaces(cycles, c);
    assert c[..|c| - 1] == c[0..|c| - 1] + c[..0];
    assert Rotation(cycles[i], cycles[j]);
  }

  // ----- the search -----

  /** The stack is a path of exactly the grey nodes, `finished` lists exactly the
      black ones, every report is genuine, and every dependency of a black node is
      accounted for. */
  ghost predicate Sound(graph: Graph, state: map<Node, Colour>, stack: seq<Node>, cycles: seq<seq<Node>>,
                        finished: seq<Node>) {
    && state.Keys <= graph.Keys
    && (forall u :: u in stack <==> u in state && state[u] == Grey)
    && (forall u :: u in finished <==> u in state && state[u] == Black)
    && Distinct(stack) && Distinct(finished)
    && IsPath(graph, stack)
    && (forall c :: c in cycles ==> IsSimpleCycle(graph, c))
    && Explained(graph, finished, cycles)
  }

  class Search {
    const graph: Graph
    var state: map<Node, Colour>
    var stack: seq<Node>
    var cycles: seq<seq<Node>>
    /** Black nodes in the order in which they were finished. */
    ghost var finished: seq<Node>
    /** The visited nodes, numbered in the order in which they were entered. */
    ghost var entered: map<Node, nat>

    ghost predicate Valid()
      reads this
    {
      && Sound(graph, state, stack, cycles, finished) && Counted(graph, state, cycles)
      && Dated(entered, state, stack, cycles)
    }

    constructor (graph: Graph)
      ensures Valid() && this.graph == graph && state == map[] && stack == [] && cycles == []
    {
      this.graph := graph;
      state := map[];
      stack := [];
      cycles := [];
      finished := [];
      entered := map[];
    }

    static lemma GrownThrough(before: map<Node, Colour>, after: map<Node, Colour>, node: Node)
      requires node !in before && Grown(before[node := Grey], after)
      ensures Grown(before, after[node := Black])
    {
      forall u | u in before ensures after[u] == before[u] {
        assert before[node := Grey][u] == before[u];
      }
    }

    static lemma WhiteShrinks(graph: Graph, a: map<Node, Colour>, b: map<Node, Colour>)
      requires Grown(a, b)
      ensures |graph.Keys - b.Keys| <= |graph.Keys - a.Keys|
    {
      SubsetSize(graph.Keys - b.Keys, graph.Keys - a.Keys);
    }

    /** What one more dependency adds to the dependencies already done. */
    static lemma GrownTwice(graph: Graph, a: map<Node, Colour>, b: map<Node, Colour>, c: map<Node, Colour>,
                            nodes: seq<Node>, n: nat)
      requires Grown(a, b) && Grown(b, c) && n < |nodes|
      ensures Grown(a, c)
      ensures AllVisited(graph, b, nodes, n) && (nodes[n] in graph ==> nodes[n] in c) ==>
                AllVisited(graph, c, nodes, n + 1)
    {
    }

    static predicate AllVisited(graph: Graph, state: map<Node, Colour>, nodes: seq<Node>, n: nat)
      requires n <= |nodes|
    {
      forall k :: 0 <= k < n && nodes[k] in graph ==> nodes[k] in state
    }

    /** Visited nodes keep their colour. */
    static predicate Grown(before: map<Node, Colour>, after: map<Node, Colour>) {
      before.Keys <= after.Keys && forall u :: u in before ==> after[u] == before[u]
    }

    /** What a visit reports: the loop of a grey node, nothing of a black one, and of
        a white one only loops closed by newly visited nodes. */
    static ghost predicate Reported(stack: seq<Node>, before: map<Node, Colour>, after: map<Node, Colour>,
                                    cycles: seq<seq<Node>>, longer: seq<seq<Node>>, node: Node)
    {
      && cycles <= longer
      && (node in before && before[node] == Black ==> longer == cycles)
      && (node in before && before[node] == Grey ==> node in stack && longer == cycles + [Loop(stack, node)])
      && (node !in before ==> Newer(longer, |cycles|, before, after, node))
    }

    /** Visited nodes keep their colour, the cycles found so far are kept, and a
        white node becomes the last one finished. */
    method Visit(node: Node)
      requires Valid() && node in graph
      requires stack != [] ==> Edge(graph, stack[|stack| - 1], node)
      modifies this
      ensures Valid() && stack == old(stack)
      ensures Grown(old(state), state) && node in state
      ensures Reported(stack, old(state), state, old(cycles), cycles, node)
      ensures node !in old(state) ==> finished != [] && finished[|finished| - 1] == node
      decreases |graph.Keys - state.Keys|, 0
    {
      hide Valid, Scanned, AllVisited, Newer, Closed, Loop;
      if node in state {
        if state[node] == Grey { Report(node); }
        return;
      }
      SubsetIsSmaller(graph.Keys - state.Keys - {node}, graph.Keys - state.Keys, node);
      Enter(node);
      VisitAll(node);
      GrownThrough(old(state), state, node);
      AllExplained(node);
      NewerThrough(cycles, |old(cycles)|, old(state), state, node);
      Finish(node, old(stack));
    }

    static lemma ReportedKeeps(stack: seq<Node>, before: map<Node, Colour>, after: map<Node, Colour>,
                               cycles: seq<seq<Node>>, longer: seq<seq<Node>>, node: Node)
      requires Reported(stack, before, after, cycles, longer, node)
      ensures cycles <= longer
    {
      hide Newer;
    }

    static lemma NewerThrough(cycles: seq<seq<Node>>, from: nat, before: map<Node, Colour>, after: map<Node, Colour>,
                              node: Node)
      requires node !in before && Newer(cycles, from, before[node := Grey], after, node)
      ensures Newer(cycles, from, before, after[node := Black], node)
    {
    }

    /** Visits the known dependencies of the node on top of the stack. */
    method VisitAll(node: Node)
      requires Valid() && node in graph && stack != [] && stack[|stack| - 1] == node
      requires forall c :: c in cycles ==> |c| >= 2 && Closer(c) != node
      modifies this
      ensures Valid() && stack == old(stack) && Grown(old(state), state)
      ensures old(cycles) <= cycles && Newer(cycles, |old(cycles)|, old(state), state, node)
      ensures Scanned(stack, cycles, graph[node], |graph[node]|)
      ensures AllVisited(graph, state, graph[node], |graph[node]|)
      decreases |graph.Keys - state.Keys|, 1
    {
      hide Valid, AllVisited, Scanned, Newer, Grown, Reported, Progress;
      var dependencies := graph[node];
      GreyIsStacked(node);
      ProgressStart(graph, state, stack, cycles, dependencies);
      for i := 0 to |dependencies|
        invariant Valid() && stack == old(stack)
        invariant Progress(graph, old(state), state, stack, old(cycles), cycles, dependencies, i)
      {
        ghost var before, found := state, cycles;
        var dependency := dependencies[i];
        GreyIsStacked(node);
        GreyIsStacked(dependency);
        ProgressShrinks(graph, old(state), state, stack, old(cycles), cycles, dependencies, i);
        if dependency in graph {
          Visit(dependency);
          ProgressVisit(graph, old(state), before, state, stack, old(cycles), found, cycles, dependencies, i);
        } else {
          ProgressUnknown(graph, old(state), state, stack, old(cycles), cycles, dependencies, i);
        }
      }
      ProgressEnd(graph, old(state), state, stack, old(cycles), cycles, dependencies);
    }

    /** What the first `n` dependencies of the node on top of the stack have added. */
    static ghost predicate Progress(graph: Graph, first: map<Node, Colour>, state: map<Node, Colour>, stack: seq<Node>,
                                    found: seq<seq<Node>>, cycles: seq<seq<Node>>, list: seq<Node>, n: nat)
    {
      && stack != [] && n <= |list| && Grown(first, state)
      && found <= cycles && Newer(cycles, |found|, first, state, stack[|stack| - 1])
      && Scanned(stack, cycles, list, n)
      && AllVisited(graph, state, list, n)
    }

    static lemma ProgressStart(graph: Graph, state: map<Node, Colour>, stack: seq<Node>, cycles: seq<seq<Node>>,
                               list: seq<Node>)
      requires stack != [] && forall c :: c in cycles ==> |c| >= 2 && Closer(c) != stack[|stack| - 1]
      ensures Progress(graph, state, state, stack, cycles, cycles, list, 0)
    {
      hide Scanned;
      ScanStart(stack, cycles, list);
    }

    static lemma ProgressShrinks(graph: Graph, first: map<Node, Colour>, state: map<Node, Colour>, stack: seq<Node>,
                                 found: seq<seq<Node>>, cycles: seq<seq<Node>>, list: seq<Node>, n: nat)
      requires Progress(graph, first, state, stack, found, cycles, list, n)
      ensures |graph.Keys - state.Keys| <= |graph.Keys - first.Keys|
    {
      hide Scanned, Newer, AllVisited;
      WhiteShrinks(graph, first, state);
    }

    static lemma ProgressUnknown(graph: Graph, first: map<Node, Colour>, state: map<Node, Colour>, stack: seq<Node>,
                                 found: seq<seq<Node>>, cycles: seq<seq<Node>>, list: seq<Node>, n: nat)
      requires Progress(graph, first, state, stack, found, cycles, list, n) && n < |list| && list[n] !in graph
               && list[n] !in stack
      ensures Progress(graph, first, state, stack, found, cycles, list, n + 1)
    {
      hide Scanned, Newer;
      ScanSkip(stack, cycles, list, n);
    }

    static lemma ProgressVisit(graph: Graph, first: map<Node, Colour>, before: map<Node, Colour>,
                               after: map<Node, Colour>, stack: seq<Node>, found: seq<seq<Node>>,
                               cycles: seq<seq<Node>>, longer: seq<seq<Node>>, list: seq<Node>, n: nat)
      requires Progress(graph, first, before, stack, found, cycles, list, n) && n < |list|
               && stack[|stack| - 1] in before
      requires list[n] in stack <==> list[n] in before && before[list[n]] == Grey
      requires Grown(before, after) && Reported(stack, before, after, cycles, longer, list[n])
      requires list[n] in after
      ensures Progress(graph, first, after, stack, found, longer, list, n + 1)
    {
      hide Scanned, Newer, Grown, AllVisited;
      GrownTwice(graph, first, before, after, list, n);
      ScanVisited(stack, before, after, cycles, longer, list, n);
      NewerVisited(cycles, longer, |found|, first, before, after, stack, list[n]);
    }

    static lemma ProgressEnd(graph: Graph, first: map<Node, Colour>, state: map<Node, Colour>, stack: seq<Node>,
                             found: seq<seq<Node>>, cycles: seq<seq<Node>>, list: seq<Node>)
      requires Progress(graph, first, state, stack, found, cycles, list, |list|)
      ensures Grown(first, state) && found <= cycles && Newer(cycles, |found|, first, state, stack[|stack| - 1])
      ensures Scanned(stack, cycles, list, |list|) && AllVisited(graph, state, list, |list|)
    {
      hide Scanned, Newer, Grown, AllVisited;
    }

    lemma GreyIsStacked(node: Node)
      requires Valid()
      ensures node in stack <==> node in state && state[node] == Grey
      ensures node in state ==> node in graph
    {
      hide Counted, Dated, IsSimpleCycle, IsPath, Explained;
    }

    /** One more dependency, of whatever colour, is accounted for. */
    static lemma ScanVisited(stack: seq<Node>, before: map<Node, Colour>, after: map<Node, Colour>,
                             cycles: seq<seq<Node>>, longer: seq<seq<Node>>, list: seq<Node>, i: nat)
      requires stack != [] && Scanned(stack, cycles, list, i) && i < |list| && stack[|stack| - 1] in before
      requires list[i] in stack <==> list[i] in before && before[list[i]] == Grey
      requires Reported(stack, before, after, cycles, longer, list[i])
      ensures Scanned(stack, longer, list, i + 1)
    {
      hide Scanned, Loop;
      if list[i] in stack {
        ScanReport(stack, cycles, list, i);
      } else {
        ScanSkip(stack, cycles, list, i);
        if list[i] !in before {
          var more := longer[|cycles|..];
          assert longer == cycles + more;
          MoreIsNewer(longer, |cycles|, before, after, list[i], stack[|stack| - 1]);
          ScanOthers(stack, cycles, more, list, i + 1);
        }
      }
    }

    static lemma MoreIsNewer(cycles: seq<seq<Node>>, from: nat, before: map<Node, Colour>, after: map<Node, Colour>,
                             node: Node, u: Node)
      requires from <= |cycles| && Newer(cycles, from, before, after, node) && u in before && node !in before
      ensures forall c :: c in cycles[from..] ==> |c| >= 2 && Closer(c) != u
    {
      forall c | c in cycles[from..]
        ensures |c| >= 2 && Closer(c) != u
      {
        var k :| 0 <= k < |cycles| - from && cycles[from..][k] == c;
        assert cycles[from + k] == c;
      }
    }

    static lemma NewerVisited(cycles: seq<seq<Node>>, longer: seq<seq<Node>>, from: nat, first: map<Node, Colour>,
                              before: map<Node, Colour>, after: map<Node, Colour>, stack: seq<Node>, dep: Node)
      requires stack != [] && Newer(cycles, from, first, before, stack[|stack| - 1]) && from <= |cycles|
      requires Reported(stack, before, after, cycles, longer, dep) && Grown(first, before) && Grown(before, after)
      requires stack[|stack| - 1] in before
      ensures Newer(longer, from, first, after, stack[|stack| - 1])
    {
      hide Loop;
      forall k | from <= k < |longer|
        ensures |longer[k]| >= 2 && Closer(longer[k]) in after
                && (Closer(longer[k]) == stack[|stack| - 1] || Closer(longer[k]) !in first)
      {
        if k < |cycles| { assert longer[k] == cycles[k]; }
      }
    }

    /** When all its listed nodes are visited, each successor of the node on top of
        the stack is finished or closes a report. */
    lemma AllExplained(node: Node)
      requires Valid() && node in graph && AllVisited(graph, state, graph[node], |graph[node]|)
      requires stack != [] && stack[|stack| - 1] == node && Scanned(stack, cycles, graph[node], |graph[node]|)
      ensures forall v :: Edge(graph, node, v) ==> v in finished || Closed(cycles, node, v)
    {
      hide Valid;
      forall v | Edge(graph, node, v)
        ensures v in finished || Closed(cycles, node, v)
      {
        GreyIsStacked(v);
        BlackIsFinished(v);
        if v in stack { LoopIsReported(stack, cycles, graph[node], v); }
      }
    }

    lemma BlackIsFinished(node: Node)
      requires Valid()
      ensures node in finished <==> node in state && state[node] == Black
    {
      hide Counted, Dated, IsSimpleCycle, IsPath, Explained;
    }

    /** Reports the part of the stack from the grey `node` on, closed by `node`. */
    method Report(node: Node)
      requires Valid() && node in graph && node in state && state[node] == Grey
      requires stack != [] ==> Edge(graph, stack[|stack| - 1], node)
      modifies `cycles
      ensures Valid() && node in stack && cycles == old(cycles) + [Loop(stack, node)]
    {
      hide Sound, Counted, Dated;
      GreyIsStacked(node);
      GreyIsStacked(stack[|stack| - 1]);
      var start := IndexOf(stack, node);
      var cycle := stack[start..] + [node];
      ReportKeeps(graph, state, stack, cycles, finished, node);
      CountedMore(graph, state, cycles, cycle);
      DatedReport(entered, state, stack, cycles, node);
      cycles := cycles + [cycle];
    }

    /** Turns a white node grey and pushes it. */
    method Enter(node: Node)
      requires Valid() && node in graph && node !in state
      requires stack != [] ==> Edge(graph, stack[|stack| - 1], node)
      modifies `state, `stack, `entered
      ensures Valid() && stack == old(stack) + [node] && state == old(state)[node := Grey]
      ensures graph.Keys - state.Keys == graph.Keys - old(state).Keys - {node}
      ensures forall c :: c in cycles ==> |c| >= 2 && Closer(c) != node
    {
      hide Sound, Exact, Dated;
      EnterKeeps(graph, state, stack, cycles, finished, node);
      DatedEnter(entered, state, stack, cycles, node);
      entered := entered[node := |entered|];
      state := state[node := Grey];
      stack := stack + [node];
    }

    method Finish(node: Node, ghost below: seq<Node>)
      requires Valid() && node in graph && stack == below + [node]
      requires forall v :: Edge(graph, node, v) ==> v in finished || Closed(cycles, node, v)
      requires Scanned(stack, cycles, graph[node], |graph[node]|)
      modifies this
      ensures Valid() && stack == below && cycles == old(cycles)
      ensures state == old(state)[node := Black] && finished == old(finished) + [node]
    {
      hide Sound, Counted, Scanned, Dated, Closed;
      GreyIsStacked(node);
      DatedFinish(entered, state, stack, cycles, node);
      FinishKeeps(graph, state, stack, cycles, finished, node);
      ScanEnd(graph, stack, cycles, node);
      CountedFinish(graph, state, cycles, node);
      stack := stack[..|stack| - 1];
      state := state[node := Black];
      finished := finished + [node];
    }
  }

  lemma EnterKeeps(graph: Graph, state: map<Node, Colour>, stack: seq<Node>, cycles: seq<seq<Node>>,
                   finished: seq<Node>, node: Node)
    requires Sound(graph, state, stack, cycles, finished) && node in graph && node !in state
    requires stack != [] ==> Edge(graph, stack[|stack| - 1], node)
    ensures Sound(graph, state[node := Grey], stack + [node], cycles, finished)
  {
    hide IsSimpleCycle, Explained;
    if stack != [] { PathAppend(graph, stack, node); }
    assert node !in stack;
  }

  lemma ReportKeeps(graph: Graph, state: map<Node, Colour>, stack: seq<Node>, cycles: seq<seq<Node>>,
                    finished: seq<Node>, node: Node)
    requires Sound(graph, state, stack, cycles, finished) && node in stack && Edge(graph, stack[|stack| - 1], node)
    ensures Sound(graph, state, stack, cycles + [Loop(stack, node)], finished)
  {
    hide Explained, Loop, IsSimpleCycle;
    LoopIsSimple(graph, stack, node);
    ExplainedMore(graph, finished, cycles, [Loop(stack, node)]);
    hide IsPath;
  }

  lemma CountedFinish(graph: Graph, state: map<Node, Colour>, cycles: seq<seq<Node>>, node: Node)
    requires Counted(graph, state, cycles)
    requires forall c :: c in cycles && |c| >= 2 && Closer(c) == node ==> Exact(graph, cycles, c)
    ensures Counted(graph, state[node := Black], cycles)
  {
    hide Exact;
  }

  lemma LoopIsSimple(graph: Graph, stack: seq<Node>, node: Node)
    requires node in stack && Distinct(stack) && IsPath(graph, stack) && Edge(graph, stack[|stack| - 1], node)
    ensures IsSimpleCycle(graph, Loop(stack, node))
  {
    var start := IndexOf(stack, node);
    PathDrop(graph, stack, start);
    PathAppend(graph, stack[start..], node);
    assert Loop(stack, node)[..|stack| - start] == stack[start..];
  }

  lemma FinishKeeps(graph: Graph, state: map<Node, Colour>, stack: seq<Node>, cycles: seq<seq<Node>>,
                    finished: seq<Node>, node: Node)
    requires Sound(graph, state, stack, cycles, finished)
    requires stack != [] && stack[|stack| - 1] == node && node in graph
    requires forall v :: Edge(graph, node, v) ==> v in finished || Closed(cycles, node, v)
    ensures Sound(graph, state[node := Black], stack[..|stack| - 1], cycles, finished + [node])
  {
    hide IsSimpleCycle, Explained, Closed;
    assert node in stack && node !in finished;
    PathTake(graph, stack, |stack| - 1);
    ExplainedNext(graph, finished, cycles, node);
  }

  lemma SubsetIsSmaller(a: set<Node>, b: set<Node>, x: Node)
    requires a <= b - {x} && x in b
    ensures |a| < |b|
  {
    SubsetSize(a, b - {x});
  }

  /** Every reported list is a closed chain of dependencies that passes no node
      twice, and nothing is reported exactly when the register is acyclic. A cycle is
      reported as often as its closing dependency is listed, and under one rotation
      only. So no cycle is reported twice if no dependency on a cycle is listed
      twice; and if one is, then a search that begins with it does report a cycle
      twice. `items` is the order in which the dictionary yields its keys. */
  method Cycles(graph: Graph, items: seq<Node>) returns (cycles: seq<seq<Node>>)
    requires forall u :: u in items <==> u in graph
    ensures forall c :: c in cycles ==> IsSimpleCycle(graph, c)
    ensures cycles == [] <==> Acyclic(graph)
    ensures forall c :: c in cycles ==> Exact(graph, cycles, c)
    ensures forall c, d :: c in cycles && d in cycles && Rotation(c, d) ==> c == d
    ensures ListedOnce(graph) ==> OncePerCycle(cycles)
    ensures items != [] ==> forall u :: OnCycle(graph, u, items[0]) && Listings(graph, u, items[0]) > 1 ==>
              !OncePerCycle(cycles)
  {
    hide Sound, Counted, Dated, Exact, Search.Reported, IsSimpleCycle, Acyclic, ListedOnce, OncePerCycle, OnCycle,
         Rotation;
    var search := new Search(graph);
    ghost var first: set<Node> := {};
    for i := 0 to |items|
      invariant fresh(search) && search.Valid() && search.stack == [] && search.graph == graph
      invariant forall k :: 0 <= k < i ==> items[k] in search.state
      invariant i == 0 ==> search.state == map[]
      invariant i > 0 ==> FirstSearched(graph, items[0], search.cycles, first)
    {
      if items[i] !in search.state {
        ghost var before, found := search.state, search.cycles;
        search.Visit(items[i]);
        Search.ReportedKeeps([], before, search.state, found, search.cycles, items[i]);
        if i == 0 {
          first := set u | u in search.finished;
          FirstIsSearched(graph, search.state, search.cycles, search.finished, search.entered, items[0]);
        } else {
          FirstStays(graph, items[0], found, search.cycles, first);
        }
      }
    }
    cycles := search.cycles;
    Conclude(graph, search.state, cycles, search.finished, search.entered);
    if items != [] { FirstIsReported(graph, items[0], cycles, first); }
  }

  /** The nodes finished by the first visit: closed under dependencies, and each
      that depends on the first item closes a report there. */
  ghost predicate FirstSearched(graph: Graph, v: Node, cycles: seq<seq<Node>>, first: set<Node>) {
    && v in first && (forall u, w :: u in first && Edge(graph, u, w) ==> w in first)
    && (forall u :: u in first && Edge(graph, u, v) ==> Closed(cycles, u, v))
  }

  lemma FirstIsSearched(graph: Graph, state: map<Node, Colour>, cycles: seq<seq<Node>>, finished: seq<Node>,
                        entered: map<Node, nat>, v: Node)
    requires Sound(graph, state, [], cycles, finished) && Dated(entered, state, [], cycles)
    requires finished != [] && finished[|finished| - 1] == v
    ensures FirstSearched(graph, v, cycles, set u | u in finished)
  {
    hide IsPath, Closed;
    forall u, w | u in finished && Edge(graph, u, w)
      ensures w in finished && (w == v ==> Closed(cycles, u, w))
    {
      var i := IndexOf(finished, u);
      if w in finished[..i] {
        var k := IndexOf(finished[..i], w);
        assert finished[k] == w;
      } else {
        ReportedIsVisited(graph, state, cycles, entered, u, w);
        assert w in state && w !in [];
      }
    }
  }

  lemma ReportedIsVisited(graph: Graph, state: map<Node, Colour>, cycles: seq<seq<Node>>, entered: map<Node, nat>,
                          u: Node, w: Node)
    requires Closed(cycles, u, w) && (forall c :: c in cycles ==> IsSimpleCycle(graph, c))
             && Dated(entered, state, [], cycles)
    ensures w in state
  {
    hide IsPath;
    var c :| c in cycles && |c| >= 2 && Closer(c) == u && Closing(c) == w;
    assert Earliest(entered, c) && IsSimpleCycle(graph, c) && c[0] in entered;
  }

  lemma FirstStays(graph: Graph, v: Node, cycles: seq<seq<Node>>, longer: seq<seq<Node>>, first: set<Node>)
    requires FirstSearched(graph, v, cycles, first) && cycles <= longer
    ensures FirstSearched(graph, v, longer, first)
  {
    hide Closed;
    forall u | u in first && Edge(graph, u, v)
      ensures Closed(longer, u, v)
    {
      ClosedMore(cycles, longer, u, v);
    }
  }

  lemma {:induction false} PathStaysIn(graph: Graph, path: seq<Node>, nodes: set<Node>)
    requires IsPath(graph, path) && path != [] && path[0] in nodes
    requires forall u, w :: u in nodes && Edge(graph, u, w) ==> w in nodes
    ensures path[|path| - 1] in nodes
  {
    if |path| >= 2 { PathStaysIn(graph, path[1..], nodes); }
  }

  /** Every dependency on the first item that lies on a cycle closes a report. */
  lemma FirstIsReported(graph: Graph, v: Node, cycles: seq<seq<Node>>, first: set<Node>)
    requires FirstSearched(graph, v, cycles, first) && forall c :: c in cycles ==> Exact(graph, cycles, c)
    ensures forall u :: OnCycle(graph, u, v) && Listings(graph, u, v) > 1 ==> !OncePerCycle(cycles)
  {
    hide Exact, OncePerCycle, Closed;
    forall u | OnCycle(graph, u, v) && Listings(graph, u, v) > 1
      ensures !OncePerCycle(cycles)
    {
      var path :| IsClosedPath(graph, path) && path[0] == u && path[1] == v;
      assert Edge(graph, path[0], path[1]);
      PathStaysIn(graph, path[1..], first);
      assert path[1..][|path| - 2] == u;
      TwiceIfListedTwice(graph, cycles, u, v);
    }
  }

  lemma Conclude(graph: Graph, state: map<Node, Colour>, cycles: seq<seq<Node>>, finished: seq<Node>,
                 entered: map<Node, nat>)
    requires Sound(graph, state, [], cycles, finished) && Counted(graph, state, cycles)
             && Dated(entered, state, [], cycles)
    requires forall u :: u in graph ==> u in state
    ensures forall c :: c in cycles ==> IsSimpleCycle(graph, c) && Exact(graph, cycles, c)
    ensures cycles == [] <==> Acyclic(graph)
    ensures forall c, d :: c in cycles && d in cycles && Rotation(c, d) ==> c == d
    ensures ListedOnce(graph) ==> OncePerCycle(cycles)
  {
    hide IsPath, Exact, Earliest, Rotation, ListedOnce, OncePerCycle;
    assert forall u :: u in state ==> u !in [] && state[u] == Black;
    if cycles == [] {
      NothingReported(graph, finished);
      TopologicalIsAcyclic(graph, finished);
    } else {
      assert IsSimpleCycle(graph, cycles[0]) && IsClosedPath(graph, cycles[0]);
    }
    forall c, d | c in cycles && d in cycles && Rotation(c, d)
      ensures c == d
    {
      assert IsSimpleCycle(graph, c) && IsSimpleCycle(graph, d);
      RotationIsSame(entered, c, d);
    }
    if ListedOnce(graph) { OnceIfListedOnce(graph, cycles, entered); }
  }

  lemma NothingReported(graph: Graph, finished: seq<Node>)
    requires Explained(graph, finished, []) && Distinct(finished)
    ensures Topological(graph, finished)
  {
  }

  /** That a cycle is reported only once fails for a repeated dependency. */
  method ReportedTwice() returns (cycles: seq<seq<Node>>)
    ensures cycles == [["a", "a"], ["a", "a"]]
  {
    hide Acyclic, IsSimpleCycle;
    var graph: Graph := map["a" := ["a", "a"]];
    cycles := Cycles(graph, ["a"]);
    SelfLoop(graph);
    forall i | 0 <= i < |cycles|
      ensures cycles[i] == ["a", "a"]
    {
      OnlyLoop(graph, cycles[i]);
    }
    assert Exact(graph, cycles, cycles[0]);
    AllSame(cycles, ["a", "a"]);
  }

  lemma SelfLoop(graph: Graph)
    requires graph == map["a" := ["a", "a"]]
    ensures !Acyclic(graph)
  {
    assert Edge(graph, "a", "a") && IsPath(graph, ["a", "a"][1..]);
    assert IsClosedPath(graph, ["a", "a"]);
  }

  lemma OnlyLoop(graph: Graph, c: seq<Node>)
    requires graph == map["a" := ["a", "a"]] && IsSimpleCycle(graph, c)
    ensures c == ["a", "a"]
  {
    hide IsPath;
    var front := c[..|c| - 1];
    assert |front| > 1 ==> front[0] != front[1] && front[0] == c[0] && front[1] == c[1];
    StartsWithSelf(graph, c);
  }

  lemma StartsWithSelf(graph: Graph, c: seq<Node>)
    requires graph == map["a" := ["a", "a"]] && |c| >= 2 && IsPath(graph, c)
    ensures c[0] == "a" && c[1] == "a"
  {
    assert Edge(graph, c[0], c[1]);
  }

  lemma {:induction false} AllSame(s: seq<seq<Node>>, c: seq<Node>)
    requires forall i :: 0 <= i < |s| ==> s[i] == c
    ensures multiset(s)[c] == |s|
  {
    if s != [] {
      assert s == [s[0]] + s[1..];
      AllSame(s[1..], c);
    }
  }
}
