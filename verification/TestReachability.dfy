/** Which source files of a workspace member are reached only by test code: two
    worklist closures over the out-of-line module edges, the product one first. */
module TestReachability {
  import opened Base

  type Path = string
  /** Module declarations of a file: the declared file, and whether the
      declaration stands under a test-only cfg. */
  type Edges = map<Path, seq<(Path, bool)>>

  predicate Skipped(skipTests: bool, edge: (Path, bool)) {
    skipTests && edge.1
  }

  /** Some declaration of `u` that is not skipped names `v`. */
  ghost predicate Follows(edges: Edges, skipTests: bool, u: Path, v: Path) {
    u in edges && exists k :: 0 <= k < |edges[u]| && edges[u][k].0 == v && !Skipped(skipTests, edges[u][k])
  }

  ghost predicate IsWalk(edges: Edges, skipTests: bool, walk: seq<Path>) {
    |walk| >= 2 ==> Follows(edges, skipTests, walk[0], walk[1]) && IsWalk(edges, skipTests, walk[1..])
  }

  ghost predicate WalkTo(edges: Edges, skipTests: bool, start: set<Path>, walk: seq<Path>, x: Path) {
    walk != [] && walk[0] in start && walk[|walk| - 1] == x && IsWalk(edges, skipTests, walk)
  }

  /** Some walk along followed declarations leads from `start` to `x`. */
  ghost predicate Reaches(edges: Edges, skipTests: bool, start: set<Path>, x: Path) {
    exists walk :: WalkTo(edges, skipTests, start, walk, x)
  }

  ghost predicate Closed(edges: Edges, skipTests: bool, s: set<Path>, u: Path) {
    forall v :: Follows(edges, skipTests, u, v) ==> v in s
  }

  lemma {:induction false} WalkExtends(edges: Edges, skipTests: bool, walk: seq<Path>, v: Path)
    requires walk != [] && IsWalk(edges, skipTests, walk)
    requires Follows(edges, skipTests, walk[|walk| - 1], v)
    ensures IsWalk(edges, skipTests, walk + [v])
  {
    if |walk| >= 2 {
      WalkExtends(edges, skipTests, walk[1..], v);
      assert (walk + [v])[1..] == walk[1..] + [v];
    }
  }

  lemma ReachesNext(edges: Edges, skipTests: bool, start: set<Path>, u: Path, v: Path)
    requires Reaches(edges, skipTests, start, u) && Follows(edges, skipTests, u, v)
    ensures Reaches(edges, skipTests, start, v)
  {
    var walk :| WalkTo(edges, skipTests, start, walk, u);
    WalkExtends(edges, skipTests, walk, v);
    assert WalkTo(edges, skipTests, start, walk + [v], v);
  }

  lemma ReachesStart(edges: Edges, skipTests: bool, start: set<Path>, x: Path)
    requires x in start
    ensures Reaches(edges, skipTests, start, x)
  {
    assert WalkTo(edges, skipTests, start, [x], x);
  }

  /** A walk that begins in a closed set never leaves it. */
  lemma {:induction false} ClosedHoldsWalk(edges: Edges, skipTests: bool, s: set<Path>, walk: seq<Path>)
    requires forall u :: u in s ==> Closed(edges, skipTests, s, u)
    requires walk != [] && walk[0] in s && IsWalk(edges, skipTests, walk)
    ensures walk[|walk| - 1] in s
  {
    if |walk| >= 2 {
      ClosedHoldsWalk(edges, skipTests, s, walk[1..]);
    }
  }

  /** A set that holds the start, is closed, and holds only reached files is
      exactly the reached files. */
  lemma ClosedIsReached(edges: Edges, skipTests: bool, start: set<Path>, s: set<Path>)
    requires start <= s
    requires forall u :: u in s ==> Closed(edges, skipTests, s, u)
    requires forall u :: u in s ==> Reaches(edges, skipTests, start, u)
    ensures forall x :: x in s <==> Reaches(edges, skipTests, start, x)
  {
    forall x | Reaches(edges, skipTests, start, x) ensures x in s {
      var walk :| WalkTo(edges, skipTests, start, walk, x);
      ClosedHoldsWalk(edges, skipTests, s, walk);
    }
  }

  method Listed(s: set<Path>) returns (r: seq<Path>)
    ensures forall x :: x in r <==> x in s
  {
    r := [];
    var rest := s;
    while rest != {}
      invariant forall x :: x in s <==> x in r || x in rest
    {
      var x :| x in rest;
      r := r + [x];
      rest := rest - {x};
    }
  }

  /** What the outer loop keeps: everything found is genuinely reached, and only
      pending files may still have undiscovered successors. */
  ghost predicate Progress(edges: Edges, skipTests: bool, start: set<Path>, all: set<Path>, reached: set<Path>,
                           pending: seq<Path>) {
    && start <= reached <= all
    && (forall u :: u in pending ==> u in reached)
    && (forall u :: u in reached ==> Reaches(edges, skipTests, start, u))
    && (forall u :: u in reached && u !in pending ==> Closed(edges, skipTests, reached, u))
  }

  /** One of the two worklist loops; the product loop skips test-only edges. */
  method Closure(edges: Edges, skipTests: bool, start: set<Path>) returns (reached: set<Path>)
    requires start <= edges.Keys
    requires forall u, k :: u in edges && 0 <= k < |edges[u]| ==> edges[u][k].0 in edges
    ensures forall x :: x in reached <==> Reaches(edges, skipTests, start, x)
  {
    reached := start;
    var pending := Listed(start);
    forall x | x in start ensures Reaches(edges, skipTests, start, x) {
      ReachesStart(edges, skipTests, start, x);
    }
    while pending != []
      invariant Progress(edges, skipTests, start, edges.Keys, reached, pending)
      decreases |edges.Keys - reached|, |pending|
    {
      var source := pending[|pending| - 1];
      ghost var before := reached;
      ghost var waiting := pending;
      pending := pending[..|pending| - 1];
      reached, pending := Expand(edges, skipTests, start, source, reached, pending);
      forall u | u in reached && u !in pending ensures Closed(edges, skipTests, reached, u) {
        if u != source {
          assert u in before && u !in waiting;
          assert Closed(edges, skipTests, before, u);
        }
      }
      Shrinks(edges.Keys, before, reached);
    }
    ClosedIsReached(edges, skipTests, start, reached);
  }

  /** The body of the worklist loop for one popped file. */
  method Expand(edges: Edges, skipTests: bool, ghost start: set<Path>, source: Path, reached: set<Path>,
                pending: seq<Path>)
    returns (reached': set<Path>, pending': seq<Path>)
    requires reached <= edges.Keys && source in reached
    requires forall u, k :: u in edges && 0 <= k < |edges[u]| ==> edges[u][k].0 in edges
    requires forall u :: u in pending ==> u in reached
    requires forall u :: u in reached ==> Reaches(edges, skipTests, start, u)
    ensures reached <= reached' <= edges.Keys
    ensures forall u :: u in pending' ==> u in reached'
    ensures forall u :: u in reached' ==> Reaches(edges, skipTests, start, u)
    ensures forall u :: u in reached' && u !in pending' ==> u in reached && u !in pending
    ensures reached' == reached ==> pending' == pending
    ensures Closed(edges, skipTests, reached', source)
  {
    reached', pending' := reached, pending;
    var declared := edges[source];
    for k := 0 to |declared|
      invariant reached <= reached' <= edges.Keys
      invariant forall u :: u in pending' ==> u in reached'
      invariant forall u :: u in reached' ==> Reaches(edges, skipTests, start, u)
      invariant forall u :: u in reached' && u !in pending' ==> u in reached && u !in pending
      invariant reached' == reached ==> pending' == pending
      invariant forall i :: 0 <= i < k && !Skipped(skipTests, declared[i]) ==> declared[i].0 in reached'
    {
      var target := declared[k].0;
      if !Skipped(skipTests, declared[k]) && target !in reached' {
        assert Follows(edges, skipTests, source, target);
        ReachesNext(edges, skipTests, start, source, target);
        reached' := reached' + {target};
        pending' := pending' + [target];
      }
    }
  }

  lemma Shrinks(all: set<Path>, a: set<Path>, b: set<Path>)
    requires a <= b <= all
    ensures a == b || |all - b| < |all - a|
  {
    if a != b {
      var x :| x in b && x !in a;
      assert all - b <= all - a - {x};
      SubsetSize(all - b, all - a - {x});
    }
  }

  /** Files named by some module declaration. */
  function Targets(edges: Edges): (r: set<Path>) {
    set u, k | u in edges && 0 <= k < |edges[u]| :: edges[u][k].0
  }

  /** Files named by some test-only module declaration. */
  function TestTargets(edges: Edges): (r: set<Path>) {
    set u, k | u in edges && 0 <= k < |edges[u]| && edges[u][k].1 :: edges[u][k].0
  }

  /** Standard roots, and every file that nothing names and that is no test target. */
  function ProductRoots(edges: Edges, standard: set<Path>, tests: set<Path>): (r: set<Path>) {
    standard + (edges.Keys - Targets(edges) - tests)
  }

  function TestOrigins(edges: Edges, tests: set<Path>): (r: set<Path>) {
    tests + TestTargets(edges)
  }

  /** Exactly the files that some test origin reaches along any declarations and
      no product root reaches along non-test declarations: product always wins. */
  method WholeTestOnlyPaths(edges: Edges, standard: set<Path>, tests: set<Path>) returns (r: set<Path>)
    requires standard <= edges.Keys && tests <= edges.Keys
    requires forall u, k :: u in edges && 0 <= k < |edges[u]| ==> edges[u][k].0 in edges
    ensures forall x :: x in r <==> Reaches(edges, false, TestOrigins(edges, tests), x)
                                    && !Reaches(edges, true, ProductRoots(edges, standard, tests), x)
  {
    var product := Closure(edges, true, ProductRoots(edges, standard, tests));
    var test := Closure(edges, false, TestOrigins(edges, tests));
    r := test - product;
  }

  /** Fail closed: a standard root, a file no declaration names and that is no
      test target, and everything such a file pulls in by a product declaration
      stays in the product scan. */
  lemma ProductWins(edges: Edges, standard: set<Path>, tests: set<Path>, u: Path, v: Path)
    requires u in edges
    requires u in standard || (u !in Targets(edges) && u !in tests)
    ensures Reaches(edges, true, ProductRoots(edges, standard, tests), u)
    ensures Follows(edges, true, u, v) ==> Reaches(edges, true, ProductRoots(edges, standard, tests), v)
  {
    var roots := ProductRoots(edges, standard, tests);
    ReachesStart(edges, true, roots, u);
    if Follows(edges, true, u, v) { ReachesNext(edges, true, roots, u, v); }
  }
}
