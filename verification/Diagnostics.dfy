/** The acceptance report's diagnosis: which gates block an incomplete gate in the end, and whether the
    report as a whole explains every incomplete result. */
module Diagnostics {
  import opened Wrappers
  import opened Sequences

  /** The incomplete gates, each with the gates it requires. */
  type Graph = map<string, seq<string>>

  /** A root blocker; `chain` is the way from the gate asked about to it. */
  datatype Root =
    | Cycle(chain: seq<string>)
    | MissingProducer(chain: seq<string>)
    | Leaf(chain: seq<string>)

  predicate IsGap(r: Root) {
    !r.Leaf?
  }

  function Last(s: seq<string>): string
    requires s != []
  {
    s[|s| - 1]
  }

  function End(r: Root): string {
    if r.chain == [] then "" else Last(r.chain)
  }

  /** `roots`: a depth-first resolution that never follows a gate already on its chain. */
  function Roots(g: Graph, gate: string, chain: seq<string>): seq<Root>
    decreases g.Keys - Elements(chain), 1, 0
  {
    var path := chain + [gate];
    if gate in chain then [Cycle(path)]
    else if gate !in g then [MissingProducer(path)]
    else if g[gate] == [] then [Leaf(path)]
    else
      assert gate in g.Keys - Elements(chain) && gate !in g.Keys - Elements(path);
      assert g.Keys - Elements(path) <= g.Keys - Elements(chain);
      RootsOfAll(g, g[gate], path)
  }

  function RootsOfAll(g: Graph, producers: seq<string>, path: seq<string>): seq<Root>
    decreases g.Keys - Elements(path), 2, |producers|
  {
    if producers == [] then []
    else Roots(g, producers[0], path) + RootsOfAll(g, producers[1..], path)
  }

  // ---------------------------------------------------------------------------
  // Walks
  // ---------------------------------------------------------------------------

  ghost predicate IsWalk(g: Graph, w: seq<string>) {
    && w != []
    && forall k | 0 <= k < |w| - 1 :: w[k] in g && w[k + 1] in g[w[k]]
  }

  ghost predicate WalkBetween(g: Graph, w: seq<string>, a: string, b: string) {
    IsWalk(g, w) && w[0] == a && Last(w) == b
  }

  ghost predicate Reaches(g: Graph, a: string, b: string) {
    exists w :: WalkBetween(g, w, a, b)
  }

  ghost predicate Loop(g: Graph, w: seq<string>, x: string) {
    |w| >= 2 && WalkBetween(g, w, x, x)
  }

  ghost predicate OnCycle(g: Graph, x: string) {
    exists w :: Loop(g, w, x)
  }

  lemma {:induction false} RootsOfAllMembers(g: Graph, producers: seq<string>, path: seq<string>, r: Root)
    ensures r in RootsOfAll(g, producers, path) <==> exists p :: p in producers && r in Roots(g, p, path)
  {
    if producers != [] {
      var first, rest := Roots(g, producers[0], path), RootsOfAll(g, producers[1..], path);
      RootsOfAllMembers(g, producers[1..], path, r);
      assert RootsOfAll(g, producers, path) == first + rest;
      if p :| p in producers && r in Roots(g, p, path) {
        assert p == producers[0] || p in producers[1..];
      }
      if r in first {
        assert producers[0] in producers;
      }
    }
  }

  /** What a root says about the graph, given that the chain so far was `chain`. */
  ghost predicate Sound(g: Graph, gate: string, chain: seq<string>, r: Root) {
    && |chain| < |r.chain| && r.chain[..|chain|] == chain
    && WalkBetween(g, r.chain[|chain|..], gate, Last(r.chain))
    && match r
       case Cycle(_) => Last(r.chain) in r.chain[..|r.chain| - 1]
       case MissingProducer(_) => Last(r.chain) !in g
       case Leaf(_) => Last(r.chain) in g && g[Last(r.chain)] == []
  }

  lemma {:induction false} RootsAreSound(g: Graph, gate: string, chain: seq<string>, r: Root)
    requires r in Roots(g, gate, chain)
    ensures Sound(g, gate, chain, r)
    decreases g.Keys - Elements(chain)
  {
    var path := chain + [gate];
    if gate in chain || gate !in g || g[gate] == [] {
      assert path[|chain|..] == [gate] && path[..|path| - 1] == chain;
    } else {
      RootsOfAllMembers(g, g[gate], path, r);
      var p :| p in g[gate] && r in Roots(g, p, path);
      assert gate in g.Keys - Elements(chain) && gate !in g.Keys - Elements(path);
      assert g.Keys - Elements(path) <= g.Keys - Elements(chain);
      RootsAreSound(g, p, path, r);
      Prepend(g, gate, chain, r);
    }
  }

  lemma Prepend(g: Graph, gate: string, chain: seq<string>, r: Root)
    requires gate in g && |chain| + 1 < |r.chain| && r.chain[..|chain| + 1] == chain + [gate]
    requires IsWalk(g, r.chain[|chain| + 1..]) && r.chain[|chain| + 1] in g[gate]
    ensures r.chain[..|chain|] == chain && r.chain[|chain|] == gate
    ensures IsWalk(g, r.chain[|chain|..]) && Last(r.chain[|chain|..]) == Last(r.chain)
  {
    var whole, rest := r.chain[|chain|..], r.chain[|chain| + 1..];
    assert r.chain[..|chain|] == r.chain[..|chain| + 1][..|chain|];
    assert r.chain[|chain|] == r.chain[..|chain| + 1][|chain|];
    forall k | 0 <= k < |whole| - 1 ensures whole[k] in g && whole[k + 1] in g[whole[k]] {
      if k > 0 {
        assert whole[k] == rest[k - 1] && whole[k + 1] == rest[k - 1 + 1];
      }
    }
  }

  /** The root for the end of a walk that stays off the chain. */
  lemma {:induction false} WalkEndIsRoot(g: Graph, w: seq<string>, chain: seq<string>)
    requires IsWalk(g, w) && (forall x | x in w :: x !in chain)
    requires Last(w) in g ==> g[Last(w)] == []
    ensures exists r :: r in Roots(g, w[0], chain) && End(r) == Last(w)
                        && r.Leaf? == (Last(w) in g) && r.MissingProducer? == (Last(w) !in g)
    decreases g.Keys - Elements(chain)
  {
    var gate, path := w[0], chain + [w[0]];
    if gate == Last(w) {
      var r := Roots(g, gate, chain)[0];
      assert gate in w && r in Roots(g, gate, chain) && End(r) == gate;
    } else {
      assert w[0] in w && w[0] in g && w[0 + 1] in g[w[0]];
      var k := LastVisit(w, gate);
      var rest := w[k + 1..];
      assert Last(rest) == Last(w) && w[k] in g && w[k + 1] in g[w[k]];
      forall i | 0 <= i < |rest| - 1 ensures rest[i] in g && rest[i + 1] in g[rest[i]] {
        assert rest[i] == w[k + 1 + i] && rest[i + 1] == w[k + 1 + i + 1];
      }
      forall x | x in rest ensures x !in path {
        assert x in w;
      }
      assert gate in g.Keys - Elements(chain) && gate !in g.Keys - Elements(path);
      assert g.Keys - Elements(path) <= g.Keys - Elements(chain);
      WalkEndIsRoot(g, rest, path);
      var r :| r in Roots(g, rest[0], path) && End(r) == Last(rest)
        && r.Leaf? == (Last(rest) in g) && r.MissingProducer? == (Last(rest) !in g);
      RootsOfAllMembers(g, g[gate], path, r);
      assert r in Roots(g, gate, chain);
    }
  }

  lemma {:induction false} LastVisit(w: seq<string>, gate: string) returns (k: nat)
    requires w != [] && w[0] == gate && Last(w) != gate
    ensures k < |w| - 1 && w[k] == gate && gate !in w[k + 1..]
  {
    k := 0;
    var i := 1;
    while i < |w|
      invariant 1 <= i <= |w| && k < i && w[k] == gate
      invariant forall j | k < j < i :: w[j] != gate
    {
      if w[i] == gate {
        k := i;
      }
      i := i + 1;
    }
  }

  /** A walk longer than there are gates left must run into its own chain. */
  lemma {:induction false} LongWalkFindsCycle(g: Graph, w: seq<string>, chain: seq<string>)
    requires IsWalk(g, w) && |w| >= |g.Keys - Elements(chain)| + 2
    ensures exists r :: r in Roots(g, w[0], chain) && r.Cycle?
    decreases |w|
  {
    var gate, path := w[0], chain + [w[0]];
    if gate in chain {
      assert Cycle(path) in Roots(g, gate, chain);
    } else {
      assert w[0] in g && w[0 + 1] in g[w[0]];
      assert Elements(path) == Elements(chain) + {gate};
      assert g.Keys - Elements(path) == (g.Keys - Elements(chain)) - {gate};
      var rest := w[1..];
      forall i | 0 <= i < |rest| - 1 ensures rest[i] in g && rest[i + 1] in g[rest[i]] {
        assert rest[i] == w[i + 1] && rest[i + 1] == w[i + 1 + 1];
      }
      LongWalkFindsCycle(g, rest, path);
      var r :| r in Roots(g, rest[0], path) && r.Cycle?;
      RootsOfAllMembers(g, g[gate], path, r);
      assert r in Roots(g, gate, chain);
    }
  }

  lemma JoinWalks(g: Graph, u: seq<string>, v: seq<string>)
    requires IsWalk(g, u) && IsWalk(g, v) && Last(u) == v[0]
    ensures IsWalk(g, u + v[1..]) && (u + v[1..])[0] == u[0] && Last(u + v[1..]) == Last(v)
  {
    var w := u + v[1..];
    forall k | 0 <= k < |w| - 1 ensures w[k] in g && w[k + 1] in g[w[k]] {
      if k < |u| - 1 {
        assert w[k] == u[k] && w[k + 1] == u[k + 1];
      } else {
        var j := k - (|u| - 1);
        assert w[k] == v[j] && w[k + 1] == v[j + 1];
      }
    }
  }

  /** Going round a cycle makes a walk as long as one likes. */
  lemma {:induction false} Pump(g: Graph, loop: seq<string>, x: string, n: nat) returns (w: seq<string>)
    requires Loop(g, loop, x)
    ensures IsWalk(g, w) && w[0] == x && |w| > n
  {
    if n == 0 {
      w := loop;
    } else {
      var shorter := Pump(g, loop, x, n - 1);
      JoinWalks(g, loop, shorter);
      w := loop + shorter[1..];
    }
  }

  /** Inside a chain with a repetition lies a cycle. */
  lemma RepetitionIsCycle(g: Graph, w: seq<string>)
    requires IsWalk(g, w) && Last(w) in w[..|w| - 1]
    ensures OnCycle(g, Last(w))
  {
    var i :| 0 <= i < |w| - 1 && w[..|w| - 1][i] == Last(w);
    var loop := w[i..];
    forall k | 0 <= k < |loop| - 1 ensures loop[k] in g && loop[k + 1] in g[loop[k]] {
      assert loop[k] == w[i + k] && loop[k + 1] == w[i + k + 1];
    }
    assert Loop(g, loop, Last(w));
  }

  // ---------------------------------------------------------------------------
  // Root resolution, for every graph
  // ---------------------------------------------------------------------------

  ghost predicate LeafRoot(g: Graph, gate: string, x: string) {
    exists r :: r in Roots(g, gate, []) && r.Leaf? && End(r) == x
  }

  ghost predicate HasGap(g: Graph, gate: string) {
    exists r :: r in Roots(g, gate, []) && IsGap(r)
  }

  /** Something under `gate` that keeps its diagnosis from being closed. */
  ghost predicate Defect(g: Graph, x: string) {
    x !in g || OnCycle(g, x)
  }

  /** Every reported chain is a walk along required gates, from the gate asked about. */
  lemma ChainsFollowEdges(g: Graph, gate: string, r: Root)
    requires r in Roots(g, gate, [])
    ensures r.chain != [] && WalkBetween(g, r.chain, gate, Last(r.chain))
  {
    RootsAreSound(g, gate, [], r);
    assert r.chain[0..] == r.chain;
  }

  /** The roots without a gap are exactly the reachable gates that require nothing. */
  lemma LeafRootsAreReachableLeaves(g: Graph, gate: string, x: string)
    ensures LeafRoot(g, gate, x) <==> Reaches(g, gate, x) && x in g && g[x] == []
  {
    if LeafRoot(g, gate, x) {
      var r :| r in Roots(g, gate, []) && r.Leaf? && End(r) == x;
      RootsAreSound(g, gate, [], r);
      assert WalkBetween(g, r.chain[0..], gate, x);
    }
    if Reaches(g, gate, x) && x in g && g[x] == [] {
      var w :| WalkBetween(g, w, gate, x);
      WalkEndIsRoot(g, w, []);
    }
  }

  /** A gap is reported exactly when a cycle, or a required gate outside the incomplete ones, is
      reachable. */
  lemma GapMeansDefect(g: Graph, gate: string)
    ensures HasGap(g, gate) <==> exists x :: Reaches(g, gate, x) && Defect(g, x)
  {
    if HasGap(g, gate) {
      var r :| r in Roots(g, gate, []) && IsGap(r);
      RootsAreSound(g, gate, [], r);
      var x := Last(r.chain);
      assert r.chain[0..] == r.chain && WalkBetween(g, r.chain, gate, x);
      if r.Cycle? {
        RepetitionIsCycle(g, r.chain);
      }
      assert Reaches(g, gate, x) && Defect(g, x);
    }
    if x :| Reaches(g, gate, x) && Defect(g, x) {
      var w :| WalkBetween(g, w, gate, x);
      if x !in g {
        WalkEndIsRoot(g, w, []);
      } else {
        var loop :| Loop(g, loop, x);
        var long := Pump(g, loop, x, |g.Keys| + 2);
        JoinWalks(g, w, long);
        assert Elements<string>([]) == {} && g.Keys - {} == g.Keys;
        LongWalkFindsCycle(g, w + long[1..], []);
      }
    }
  }

  // ---------------------------------------------------------------------------
  // The report
  // ---------------------------------------------------------------------------

  /** A gate result: `own` are the fields its own diagnostic lacks. */
  datatype Gate = Gate(id: string, incomplete: bool, required: seq<string>, own: set<string>)

  /** `missing` holds each node's missing fields; the report lists them sorted. */
  datatype Report = Report(complete: bool, missing: map<string, set<string>>, roots: map<string, seq<Root>>)

  const CYCLE_GAP := "dependency cycle"

  const MISSING_GAP := "missing incomplete producer result"

  predicate FromRoot(field: string) {
    |field| >= 5 && field[..5] == "root:"
  }

  function RootField(gate: string, field: string): string {
    "root:" + gate + ":" + field
  }

  function IdOf(gate: Gate): string {
    gate.id
  }

  ghost predicate DistinctIds(results: seq<Gate>) {
    DistinctBy(results, IdOf)
  }

  /** The incomplete results by id. */
  function NodesOf(results: seq<Gate>): map<string, Gate> {
    if results == [] then map[]
    else
      var m, last := NodesOf(results[..|results| - 1]), results[|results| - 1];
      if last.incomplete then m[last.id := last] else m
  }

  lemma {:induction false} NodesMeaning(results: seq<Gate>, x: string)
    requires DistinctIds(results)
    ensures x in NodesOf(results) <==> exists gate :: gate in results && gate.incomplete && gate.id == x
    ensures forall gate | gate in results && gate.incomplete && gate.id == x :: NodesOf(results)[x] == gate
  {
    if results != [] {
      var init, last := results[..|results| - 1], results[|results| - 1];
      NodesMeaning(init, x);
      assert forall gate :: gate in results <==> gate in init || gate == last;
      assert forall gate | gate in init :: gate.id != last.id;
    }
  }

  function GraphOf(nodes: map<string, Gate>): Graph {
    map x | x in nodes :: nodes[x].required
  }

  function OwnOf(nodes: map<string, Gate>): map<string, set<string>> {
    map x | x in nodes :: nodes[x].own
  }

  function RootFields(r: Root, gate: string, fields: map<string, set<string>>): set<string> {
    match r
    case Cycle(_) => {CYCLE_GAP}
    case MissingProducer(_) => {MISSING_GAP}
    case Leaf(chain) =>
      if chain == [] || Last(chain) == gate || Last(chain) !in fields then {}
      else set f | f in fields[Last(chain)] && !FromRoot(f) :: RootField(Last(chain), f)
  }

  function AllRootFields(rs: seq<Root>, gate: string, fields: map<string, set<string>>): set<string> {
    if rs == [] then {}
    else AllRootFields(rs[..|rs| - 1], gate, fields) + RootFields(rs[|rs| - 1], gate, fields)
  }

  /** A node's missing fields in terms of the fields every gate lacks by itself. */
  function FinalMissing(g: Graph, own: map<string, set<string>>, gate: string): set<string>
    requires gate in own
  {
    own[gate] + AllRootFields(Roots(g, gate, []), gate, own)
  }

  /** Processing a gate that requires nothing adds nothing, so it may be read before or after. */
  lemma LeafKeepsItsFields(g: Graph, own: map<string, set<string>>, gate: string)
    requires gate in g && gate in own && g[gate] == []
    ensures FinalMissing(g, own, gate) == own[gate]
  {
    var rs := Roots(g, gate, []);
    assert [] + [gate] == [gate] && Last([gate]) == gate;
    assert rs == [Leaf([gate])] && rs[..0] == [];
    assert AllRootFields(rs, gate, own) == AllRootFields([], gate, own) + RootFields(rs[0], gate, own);
  }

  /** Reading partly processed nodes gives the same fields as reading the original ones. */
  lemma {:induction false} ReadsAgree(
      g: Graph, own: map<string, set<string>>, now: map<string, set<string>>, rs: seq<Root>, gate: string)
    requires now.Keys == own.Keys == g.Keys
    requires forall x | x in own :: now[x] == own[x] || now[x] == FinalMissing(g, own, x)
    requires forall r | r in rs && r.Leaf? :: r.chain != [] && Last(r.chain) in g && g[Last(r.chain)] == []
    ensures AllRootFields(rs, gate, now) == AllRootFields(rs, gate, own)
  {
    if rs != [] {
      var last := rs[|rs| - 1];
      ReadsAgree(g, own, now, rs[..|rs| - 1], gate);
      if last.Leaf? {
        assert last in rs;
        LeafKeepsItsFields(g, own, Last(last.chain));
      }
    }
  }

  lemma RootsEndInLeaves(g: Graph, gate: string)
    ensures forall r | r in Roots(g, gate, []) && r.Leaf? ::
              r.chain != [] && Last(r.chain) in g && g[Last(r.chain)] == []
  {
    forall r | r in Roots(g, gate, []) && r.Leaf?
      ensures r.chain != [] && Last(r.chain) in g && g[Last(r.chain)] == []
    {
      RootsAreSound(g, gate, [], r);
    }
  }

  /** The report that the original nodes call for. */
  ghost function ReportOn(g: Graph, own: map<string, set<string>>, any: bool): (r: Report)
    ensures r.missing.Keys == r.roots.Keys == own.Keys
    ensures forall x | x in own :: r.missing[x] == FinalMissing(g, own, x) && r.roots[x] == Roots(g, x, [])
  {
    Report(any && forall x | x in own :: FinalMissing(g, own, x) == {},
           map x | x in own :: FinalMissing(g, own, x),
           map x | x in own :: Roots(g, x, []))
  }

  ghost function ReportOf(results: seq<Gate>): Report {
    ReportOn(GraphOf(NodesOf(results)), OwnOf(NodesOf(results)), results != [])
  }

  /** `diagnostic_projection`.  The loop rewrites nodes that later turns read, and still every node gets
      the fields that the original nodes call for. */
  method DiagnosticProjection(results: seq<Gate>) returns (r: Option<Report>)
    ensures r.Some? <==> DistinctIds(results)
    ensures DistinctIds(results) ==> r == Some(ReportOf(results))
  {
    var byId: map<string, Gate> := map[];
    var ids: set<string> := {};
    var order: seq<string> := [];
    for i := 0 to |results|
      invariant forall x :: x in ids <==> exists k :: 0 <= k < i && results[k].id == x
      invariant DistinctIds(results[..i]) && byId == NodesOf(results[..i])
      invariant Elements(order) == byId.Keys <= ids && Distinct(order)
    {
      var gate := results[i];
      if gate.id in ids {
        return None;
      }
      ids := ids + {gate.id};
      assert results[..i + 1][..i] == results[..i];
      if gate.incomplete {
        DistinctAppend(order, gate.id);
        byId, order := byId[gate.id := gate], order + [gate.id];
      }
    }
    assert results[..|results|] == results;
    var report := CompleteNodes(GraphOf(byId), OwnOf(byId), order, results != []);
    return Some(report);
  }

  /** The loop over the nodes, in any order: it rewrites nodes that later turns read. */
  method CompleteNodes(g: Graph, own: map<string, set<string>>, order: seq<string>, any: bool) returns (r: Report)
    requires g.Keys == own.Keys == Elements(order) && Distinct(order)
    ensures r == ReportOn(g, own, any)
  {
    var nodes := own;
    var roots: map<string, seq<Root>> := map[];
    var complete := any;
    ghost var done: set<string> := {};
    for i := 0 to |order|
      invariant done == Elements(order[..i]) && Progress(g, own, any, nodes, roots, complete, done)
    {
      var gate := order[i];
      PrefixElements(order, i);
      var rs, fields := CompleteNode(g, own, nodes, gate);
      ProgressStep(g, own, any, nodes, roots, complete, done, gate);
      done := done + {gate};
      nodes, roots := nodes[gate := fields], roots[gate := rs];
      complete := complete && fields == {};
    }
    assert order[..|order|] == order;
    ProgressEnds(g, own, any, nodes, roots, complete);
    r := Report(complete, nodes, roots);
  }

  /** The nodes in `done` have their final fields, the others still the original ones. */
  ghost predicate Progress(
      g: Graph, own: map<string, set<string>>, any: bool,
      nodes: map<string, set<string>>, roots: map<string, seq<Root>>, complete: bool, done: set<string>)
  {
    && nodes.Keys == own.Keys && roots.Keys == done && done <= own.Keys
    && (forall x | x in own :: nodes[x] == if x in done then FinalMissing(g, own, x) else own[x])
    && (forall x | x in done :: roots[x] == Roots(g, x, []))
    && (complete <==> any && forall x | x in done :: FinalMissing(g, own, x) == {})
  }

  lemma ProgressStep(
      g: Graph, own: map<string, set<string>>, any: bool,
      nodes: map<string, set<string>>, roots: map<string, seq<Root>>, complete: bool, done: set<string>, gate: string)
    requires Progress(g, own, any, nodes, roots, complete, done) && gate in own && gate !in done
    ensures var fields := FinalMissing(g, own, gate);
            Progress(g, own, any, nodes[gate := fields], roots[gate := Roots(g, gate, [])],
                     complete && fields == {}, done + {gate})
  {
  }

  lemma ProgressEnds(
      g: Graph, own: map<string, set<string>>, any: bool,
      nodes: map<string, set<string>>, roots: map<string, seq<Root>>, complete: bool)
    requires Progress(g, own, any, nodes, roots, complete, own.Keys)
    ensures Report(complete, nodes, roots) == ReportOn(g, own, any)
  {
    var r := ReportOn(g, own, any);
    SameMap(nodes, r.missing);
    SameMap(roots, r.roots);
  }

  lemma SameMap<V>(a: map<string, V>, b: map<string, V>)
    requires a.Keys == b.Keys && forall x | x in a :: a[x] == b[x]
    ensures a == b
  {
  }

  /** One turn: `now` are the nodes as they are, some of them processed already. */
  method CompleteNode(g: Graph, ghost own: map<string, set<string>>, now: map<string, set<string>>, gate: string)
    returns (rs: seq<Root>, fields: set<string>)
    requires now.Keys == own.Keys == g.Keys && gate in now && now[gate] == own[gate]
    requires forall x | x in own :: now[x] == own[x] || now[x] == FinalMissing(g, own, x)
    ensures rs == Roots(g, gate, []) && fields == FinalMissing(g, own, gate)
  {
    rs := Roots(g, gate, []);
    RootsEndInLeaves(g, gate);
    ReadsAgree(g, own, now, rs, gate);
    fields := now[gate];
    for k := 0 to |rs|
      invariant fields == own[gate] + AllRootFields(rs[..k], gate, now)
    {
      assert rs[..k + 1][..k] == rs[..k];
      fields := fields + RootFields(rs[k], gate, now);
    }
    assert rs[..|rs|] == rs;
  }

  // ---------------------------------------------------------------------------
  // What the report says
  // ---------------------------------------------------------------------------

  lemma {:induction false} RootFieldsEmpty(rs: seq<Root>, gate: string, own: map<string, set<string>>)
    requires AllRootFields(rs, gate, own) == {}
    ensures forall r | r in rs :: !IsGap(r)
  {
    if rs != [] {
      RootFieldsEmpty(rs[..|rs| - 1], gate, own);
      assert CYCLE_GAP in {CYCLE_GAP} && MISSING_GAP in {MISSING_GAP};
      forall r | r in rs ensures !IsGap(r) {
        assert r in rs[..|rs| - 1] || r == rs[|rs| - 1];
      }
    }
  }

  lemma {:induction false} NoFieldsNoGaps(rs: seq<Root>, gate: string, own: map<string, set<string>>)
    requires (forall r | r in rs :: !IsGap(r)) && (forall x | x in own :: own[x] == {})
    ensures AllRootFields(rs, gate, own) == {}
  {
    if rs != [] {
      NoFieldsNoGaps(rs[..|rs| - 1], gate, own);
      assert rs[|rs| - 1] in rs;
    }
  }

  ghost predicate Closed(g: Graph) {
    forall x, p | x in g && p in g[x] :: p in g
  }

  ghost predicate Acyclic(g: Graph) {
    forall x :: !OnCycle(g, x)
  }

  /** In a closed acyclic graph nothing is wrong below any gate, and conversely. */
  lemma NoDefectBelow(g: Graph)
    ensures (forall gate | gate in g :: !HasGap(g, gate)) <==> Closed(g) && Acyclic(g)
  {
    forall gate ensures HasGap(g, gate) <==> exists x :: Reaches(g, gate, x) && Defect(g, x) {
      GapMeansDefect(g, gate);
    }
    if forall gate | gate in g :: !HasGap(g, gate) {
      forall x, p | x in g && p in g[x] ensures p in g {
        assert WalkBetween(g, [x, p], x, p);
        assert Reaches(g, x, p);
        assert !HasGap(g, x) && !Defect(g, p);
      }
      forall x ensures !OnCycle(g, x) {
        if w :| Loop(g, w, x) {
          assert w[0] in g;
          assert WalkBetween(g, [x], x, x);
          assert Reaches(g, x, x) && !HasGap(g, x);
        }
      }
    }
    if Closed(g) && Acyclic(g) {
      forall gate, x | gate in g && Reaches(g, gate, x) ensures !Defect(g, x) {
        var w :| WalkBetween(g, w, gate, x);
        if |w| > 1 {
          assert w[|w| - 2] in g && w[|w| - 2 + 1] in g[w[|w| - 2]];
        }
      }
    }
  }

  lemma NothingMissing(g: Graph, own: map<string, set<string>>)
    requires g.Keys == own.Keys
    ensures (forall x | x in own :: FinalMissing(g, own, x) == {}) <==>
            (forall x | x in own :: own[x] == {}) && Closed(g) && Acyclic(g)
  {
    NoDefectBelow(g);
    if forall x | x in own :: FinalMissing(g, own, x) == {} {
      forall x | x in own ensures !HasGap(g, x) && own[x] == {} {
        RootFieldsEmpty(Roots(g, x, []), x, own);
      }
    }
    if (forall x | x in own :: own[x] == {}) && Closed(g) && Acyclic(g) {
      forall x | x in own ensures FinalMissing(g, own, x) == {} {
        assert !HasGap(g, x);
        NoFieldsNoGaps(Roots(g, x, []), x, own);
      }
    }
  }

  /** The report is COMPLETE exactly when there are results, every incomplete gate's own diagnostic is
      complete, and the incomplete gates form a closed graph without cycles. */
  lemma CompleteMeansExplained(results: seq<Gate>)
    requires DistinctIds(results)
    ensures var nodes := NodesOf(results);
            ReportOf(results).complete <==>
              && results != []
              && (forall gate | gate in results && gate.incomplete :: gate.own == {})
              && Closed(GraphOf(nodes)) && Acyclic(GraphOf(nodes))
  {
    var nodes := NodesOf(results);
    NothingMissing(GraphOf(nodes), OwnOf(nodes));
    OwnFieldsMeaning(results);
  }

  lemma OwnFieldsMeaning(results: seq<Gate>)
    requires DistinctIds(results)
    ensures var own := OwnOf(NodesOf(results));
            (forall x | x in own :: own[x] == {}) <==>
            (forall gate | gate in results && gate.incomplete :: gate.own == {})
  {
    var nodes := NodesOf(results);
    var own := OwnOf(nodes);
    forall gate | gate in results && gate.incomplete ensures gate.id in own && own[gate.id] == gate.own {
      NodesMeaning(results, gate.id);
    }
    forall x | x in own ensures nodes[x] in results && nodes[x].incomplete {
      NodesMeaning(results, x);
    }
  }

  /** The order in which the results are listed, and so the order of the loop, does not matter. */
  lemma OrderDoesNotMatter(a: seq<Gate>, b: seq<Gate>)
    requires DistinctIds(a) && DistinctIds(b) && (forall gate :: gate in a <==> gate in b)
    ensures ReportOf(a) == ReportOf(b)
  {
    forall x ensures x in NodesOf(a) <==> x in NodesOf(b)
      ensures x in NodesOf(a) ==> NodesOf(a)[x] == NodesOf(b)[x]
    {
      NodesMeaning(a, x);
      NodesMeaning(b, x);
    }
    assert NodesOf(a) == NodesOf(b);
    assert a == [] <==> b == [] by {
      assert a != [] ==> a[0] in a;
      assert b != [] ==> b[0] in b;
    }
  }
}
