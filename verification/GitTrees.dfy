/** Git tree objects, the server's recursive listing of one, and the client's breadth-first walk.

    Object ids are numbers given out in creation order, and 0 stands for the empty string, so a
    subtree always has a smaller id than the tree that names it (Git trees cannot be cyclic). */
module GitTrees {
  import opened Sequences

  const MAX_DEPTH: nat := 64
  const MAX_ENTRIES: nat := 1_000_000

  type Sha = nat

  const NO_SHA: Sha := 0

  datatype Error = Conflict | Unavailable | TooLarge | Corrupt | Refused(code: int)

  datatype Result<+T> = Ok(value: T) | Err(error: Error)

  datatype Kind = Blob | Tree | Other

  datatype Entry = Entry(path: string, kind: Kind, sha: Sha)

  datatype TreeReply = TreeReply(truncated: bool, tree: seq<Entry>)

  type Trees = map<Sha, seq<Entry>>

  /** A name that Git allows in a tree. */
  predicate ValidName(name: string) {
    name != "" && name != "." && name != ".." && '/' !in name
  }

  ghost predicate ValidTree(trees: Trees, t: Sha, es: seq<Entry>) {
    && (forall i | 0 <= i < |es| ::
          && ValidName(es[i].path)
          && es[i].sha != NO_SHA
          && (es[i].kind.Tree? ==> es[i].sha in trees && es[i].sha < t))
    && DistinctPaths(es)
  }

  ghost predicate ValidTrees(trees: Trees) {
    forall t | t in trees :: ValidTree(trees, t, trees[t])
  }

  /** `path.Join` on names that Git allows in a tree. */
  function Join(prefix: string, name: string): string {
    if prefix == "" then name else prefix + "/" + name
  }

  // ---------------------------------------------------------------------------
  // The server's side: the recursive listing of a tree, in preorder
  // ---------------------------------------------------------------------------

  function Rebase(prefix: string, es: seq<Entry>): (r: seq<Entry>)
    ensures |r| == |es|
    ensures forall i | 0 <= i < |es| :: r[i] == es[i].(path := Join(prefix, es[i].path))
  {
    seq(|es|, i requires 0 <= i < |es| => es[i].(path := Join(prefix, es[i].path)))
  }

  ghost function Listing(trees: Trees, t: Sha): seq<Entry>
    requires ValidTrees(trees) && t in trees
    decreases t, |trees[t]| + 1
  {
    ListingOf(trees, t, trees[t])
  }

  ghost function ListingOf(trees: Trees, t: Sha, es: seq<Entry>): seq<Entry>
    requires ValidTrees(trees) && ValidTree(trees, t, es)
    decreases t, |es|
  {
    if es == [] then []
    else
      var below := if es[0].kind.Tree? then Rebase(es[0].path, Listing(trees, es[0].sha)) else [];
      [es[0]] + below + ListingOf(trees, t, es[1..])
  }

  /** How many levels of subtrees lie below a tree. */
  ghost function Depth(trees: Trees, t: Sha): nat
    requires ValidTrees(trees) && t in trees
    decreases t, |trees[t]| + 1
  {
    DepthOf(trees, t, trees[t])
  }

  ghost function DepthOf(trees: Trees, t: Sha, es: seq<Entry>): nat
    requires ValidTrees(trees) && ValidTree(trees, t, es)
    decreases t, |es|
  {
    if es == [] then 0
    else
      var here := if es[0].kind.Tree? then 1 + Depth(trees, es[0].sha) else 0;
      var rest := DepthOf(trees, t, es[1..]);
      if here > rest then here else rest
  }

  /** The path-to-blob map of a list of entries; a later entry wins. */
  function BlobMap(es: seq<Entry>): map<string, Sha> {
    if es == [] then map[]
    else
      var last := es[|es| - 1];
      var m := BlobMap(es[..|es| - 1]);
      if last.kind.Blob? && last.path != "" && last.sha != NO_SHA then m[last.path := last.sha] else m
  }

  /** The contents of a tree as the rest of the program sees it. */
  ghost function Flat(trees: Trees, t: Sha): map<string, Sha>
    requires ValidTrees(trees) && t in trees
  {
    BlobMap(Listing(trees, t))
  }

  /** The client's reading of a recursive listing. */
  method BlobEntries(tree: seq<Entry>, prefix: string) returns (entries: map<string, Sha>)
    ensures (forall e | e in tree :: e.path != "") ==> entries == BlobMap(Rebase(prefix, tree))
    ensures prefix == "" ==> entries == BlobMap(tree)
  {
    entries := map[];
    ghost var placed := seq(|tree|, i requires 0 <= i < |tree| =>
      if tree[i].path == "" then tree[i] else tree[i].(path := Join(prefix, tree[i].path)));
    for i := 0 to |tree|
      invariant entries == BlobMap(placed[..i])
    {
      assert placed[..i + 1][..i] == placed[..i];
      if tree[i].kind.Blob? && tree[i].path != "" && tree[i].sha != NO_SHA {
        entries := entries[Join(prefix, tree[i].path) := tree[i].sha];
      }
    }
    assert placed[..|tree|] == placed;
    assert prefix == "" ==> placed == tree;
    assert (forall e | e in tree :: e.path != "") ==> placed == Rebase(prefix, tree);
  }

  // ---------------------------------------------------------------------------
  // Listings have no two entries at one path
  // ---------------------------------------------------------------------------

  function FirstName(path: string): string {
    if path == "" || path[0] == '/' then "" else [path[0]] + FirstName(path[1..])
  }

  lemma {:induction false} FirstNameOfJoin(name: string, rest: string)
    requires '/' !in name
    ensures FirstName(name) == name
    ensures FirstName(name + "/" + rest) == name
  {
    if name != "" {
      FirstNameOfJoin(name[1..], rest);
      assert (name + "/" + rest)[1..] == name[1..] + "/" + rest;
      assert name == [name[0]] + name[1..];
    } else {
      assert "" + "/" + rest == ['/'] + rest;
    }
  }

  function PathOf(e: Entry): string {
    e.path
  }

  ghost predicate DistinctPaths(es: seq<Entry>) {
    DistinctBy(es, PathOf)
  }

  lemma {:induction false} ListingOfFirstNames(trees: Trees, t: Sha, es: seq<Entry>)
    requires ValidTrees(trees) && ValidTree(trees, t, es)
    ensures forall x | x in ListingOf(trees, t, es) ::
              && x.path != "" && x.sha != NO_SHA
              && exists e :: e in es && FirstName(x.path) == e.path
    decreases t, |es|
  {
    if es != [] {
      var e := es[0];
      FirstNameOfJoin(e.path, "");
      var rest := es[1..];
      ListingOfFirstNames(trees, t, rest);
      if e.kind.Tree? {
        ListingOfFirstNames(trees, e.sha, trees[e.sha]);
        forall x | x in Rebase(e.path, Listing(trees, e.sha))
          ensures x.path != "" && x.sha != NO_SHA && FirstName(x.path) == e.path
        {
          var i :| 0 <= i < |Listing(trees, e.sha)| && x == Rebase(e.path, Listing(trees, e.sha))[i];
          FirstNameOfJoin(e.path, Listing(trees, e.sha)[i].path);
          assert Listing(trees, e.sha)[i] in Listing(trees, e.sha);
        }
      }
      assert e in es && forall r | r in rest :: r in es;
    }
  }

  lemma RebaseKeepsDistinct(prefix: string, es: seq<Entry>)
    requires DistinctPaths(es) && prefix != ""
    ensures DistinctPaths(Rebase(prefix, es))
  {
    var r := Rebase(prefix, es);
    forall i, j | 0 <= i < j < |r| ensures r[i].path != r[j].path {
      JoinIsInjective(prefix, es[i].path, es[j].path);
    }
  }

  lemma JoinIsInjective(prefix: string, a: string, b: string)
    ensures Join(prefix, a) == Join(prefix, b) ==> a == b
  {
    if prefix != "" {
      assert a == Join(prefix, a)[|prefix| + 1..];
      assert b == Join(prefix, b)[|prefix| + 1..];
    }
  }

  /** What stands below one entry of a tree and what its later entries list have no path in common. */
  lemma DisjointByFirstName(trees: Trees, t: Sha, es: seq<Entry>, top: seq<Entry>)
    requires ValidTrees(trees) && es != [] && ValidTree(trees, t, es)
    requires forall x | x in top :: FirstName(x.path) == es[0].path
    ensures forall x, y | x in top && y in ListingOf(trees, t, es[1..]) :: x.path != y.path
  {
    ListingOfFirstNames(trees, t, es[1..]);
    forall x, y | x in top && y in ListingOf(trees, t, es[1..]) ensures x.path != y.path {
      var f :| f in es[1..] && FirstName(y.path) == f.path;
    }
  }

  lemma RebaseFirstNames(name: string, sub: seq<Entry>)
    requires ValidName(name)
    ensures forall x | x in Rebase(name, sub) :: FirstName(x.path) == name && |x.path| > |name|
  {
    var below := Rebase(name, sub);
    forall x | x in below ensures FirstName(x.path) == name && |x.path| > |name| {
      var i :| 0 <= i < |sub| && x == below[i];
      FirstNameOfJoin(name, sub[i].path);
    }
  }

  /** No path occurs twice in a listing, so it does not matter in which order it is read. */
  lemma {:induction false} ListingIsDistinct(trees: Trees, t: Sha, es: seq<Entry>)
    requires ValidTrees(trees) && ValidTree(trees, t, es)
    ensures DistinctPaths(ListingOf(trees, t, es))
    decreases t, |es|
  {
    if es != [] {
      var e := es[0];
      var below := if e.kind.Tree? then Rebase(e.path, Listing(trees, e.sha)) else [];
      ListingIsDistinct(trees, t, es[1..]);
      FirstNameOfJoin(e.path, "");
      if e.kind.Tree? {
        ListingIsDistinct(trees, e.sha, trees[e.sha]);
        RebaseKeepsDistinct(e.path, Listing(trees, e.sha));
        RebaseFirstNames(e.path, Listing(trees, e.sha));
      }
      DistinctByConcat([e], below, PathOf);
      DisjointByFirstName(trees, t, es, [e] + below);
      DistinctByConcat([e] + below, ListingOf(trees, t, es[1..]), PathOf);
    }
  }

  lemma {:induction false} BlobMapMeaning(es: seq<Entry>, p: string)
    requires DistinctPaths(es)
    ensures p in BlobMap(es) <==>
            exists e :: e in es && e.kind.Blob? && e.path == p && p != "" && e.sha != NO_SHA
    ensures forall e | e in es && e.kind.Blob? && e.path == p && p != "" && e.sha != NO_SHA ::
              BlobMap(es)[p] == e.sha
  {
    if es != [] {
      var last, init := es[|es| - 1], es[..|es| - 1];
      BlobMapMeaning(init, p);
      assert es == init + [last];
      forall e | e in es && e.path == p && e != last ensures e in init {}
      forall e | e in init ensures e.path != last.path {}
      forall e | e in init ensures e in es {}
    }
  }

  /** Two orders of the same entries give the same map. */
  lemma SameEntriesSameMap(a: seq<Entry>, b: seq<Entry>)
    requires multiset(a) == multiset(b) && DistinctPaths(b)
    ensures BlobMap(a) == BlobMap(b)
  {
    PermutedDistinct(a, b);
    forall e ensures e in a <==> e in b {
      assert e in a <==> e in multiset(a);
      assert e in b <==> e in multiset(b);
    }
    forall p ensures p in BlobMap(a) <==> p in BlobMap(b)
      ensures p in BlobMap(a) ==> BlobMap(a)[p] == BlobMap(b)[p]
    {
      BlobMapMeaning(a, p);
      BlobMapMeaning(b, p);
    }
  }

  lemma PermutedDistinct(a: seq<Entry>, b: seq<Entry>)
    requires multiset(a) == multiset(b) && DistinctPaths(b)
    ensures DistinctPaths(a)
  {
    forall i, j | 0 <= i < j < |a| ensures a[i].path != a[j].path {
      if a[i].path == a[j].path {
        var x, y := a[i], a[j];
        assert x in multiset(a) && y in multiset(a);
        assert x in multiset(b) && y in multiset(b);
        var k :| 0 <= k < |b| && b[k] == x;
        var l :| 0 <= l < |b| && b[l] == y;
        assert k == l && x == y;
        Twice(a, i, j);
        Once(b, k);
      }
    }
  }

  lemma Twice(s: seq<Entry>, i: nat, j: nat)
    requires i < j < |s| && s[i] == s[j]
    ensures multiset(s)[s[i]] >= 2
  {
    assert s == s[..j] + s[j..] && s[i] in s[..j] && s[i] in s[j..];
    assert multiset(s) == multiset(s[..j]) + multiset(s[j..]);
    assert s[i] in multiset(s[..j]) && s[i] in multiset(s[j..]);
  }

  lemma Once(s: seq<Entry>, k: nat)
    requires k < |s| && DistinctPaths(s)
    ensures multiset(s)[s[k]] == 1
  {
    assert s == s[..k] + [s[k]] + s[k + 1..];
    assert multiset(s) == multiset(s[..k]) + multiset{s[k]} + multiset(s[k + 1..]);
    assert s[k] !in s[..k] && s[k] !in s[k + 1..];
  }

  // ---------------------------------------------------------------------------
  // The breadth-first walk
  // ---------------------------------------------------------------------------

  datatype Pending = Pending(sha: Sha, prefix: string, depth: nat)

  datatype Walk = Walk(pending: seq<Pending>, entries: map<string, Sha>, visited: nat)

  /** The walk's loop over the entries of one tree. */
  function Visit(at: Pending, es: seq<Entry>, pending: seq<Pending>, entries: map<string, Sha>)
    : Result<(seq<Pending>, map<string, Sha>)>
  {
    if es == [] then Ok((pending, entries))
    else if es[0].path == "" || es[0].sha == NO_SHA then Err(Corrupt)
    else
      var p := Join(at.prefix, es[0].path);
      match es[0].kind
      case Blob => Visit(at, es[1..], pending, entries[p := es[0].sha])
      case Tree =>
        if at.depth >= MAX_DEPTH then Err(Unavailable)
        else Visit(at, es[1..], pending + [Pending(es[0].sha, p, at.depth + 1)], entries)
      case Other => Visit(at, es[1..], pending, entries)
  }

  /** One turn of the walk: take the first pending tree and absorb the server's answer for it. */
  function Absorb(w: Walk, reply: TreeReply): Result<Walk>
    requires w.pending != []
  {
    if reply.truncated || w.visited + |reply.tree| > MAX_ENTRIES then Err(Unavailable)
    else
      match Visit(w.pending[0], reply.tree, w.pending[1..], w.entries)
      case Err(e) => Err(e)
      case Ok((pending, entries)) => Ok(Walk(pending, entries, w.visited + |reply.tree|))
  }

  /** What the pending trees still have to yield. */
  ghost function Owed(trees: Trees, pending: seq<Pending>): seq<Entry>
    requires ValidTrees(trees)
    requires forall q | q in pending :: q.sha in trees
  {
    if pending == [] then []
    else
      assert pending[0] in pending;
      Rebase(pending[0].prefix, Listing(trees, pending[0].sha)) + Owed(trees, pending[1..])
  }

  /** `seen` are the entries absorbed so far, in the walk's own order. */
  ghost predicate WalkWitness(trees: Trees, root: Sha, w: Walk, seen: seq<Entry>)
    requires ValidTrees(trees) && root in trees
  {
    && (forall q | q in w.pending :: q.sha in trees && q.depth <= MAX_DEPTH)
    && w.entries == BlobMap(seen)
    && w.visited == |seen|
    && multiset(seen + Owed(trees, w.pending)) == multiset(Listing(trees, root))
    && (Depth(trees, root) <= MAX_DEPTH <==>
        forall q | q in w.pending :: q.depth + Depth(trees, q.sha) <= MAX_DEPTH)
  }

  ghost predicate WalkInv(trees: Trees, root: Sha, w: Walk)
    requires ValidTrees(trees) && root in trees
  {
    exists seen :: WalkWitness(trees, root, w, seen)
  }

  function Children(at: Pending, es: seq<Entry>): seq<Pending> {
    if es == [] then []
    else
      (if es[0].kind.Tree? then [Pending(es[0].sha, Join(at.prefix, es[0].path), at.depth + 1)] else [])
      + Children(at, es[1..])
  }

  lemma {:induction false} ChildrenMeaning(trees: Trees, at: Pending, es: seq<Entry>, limit: nat)
    requires ValidTrees(trees) && ValidTree(trees, at.sha, es) && at.depth <= limit
    ensures forall q | q in Children(at, es) :: q.sha in trees && q.depth == at.depth + 1
    ensures at.depth + DepthOf(trees, at.sha, es) <= limit <==>
            forall q | q in Children(at, es) :: q.depth + Depth(trees, q.sha) <= limit
    ensures DepthOf(trees, at.sha, es) == 0 <==> Children(at, es) == []
  {
    if es != [] {
      var rest := Children(at, es[1..]);
      ChildrenMeaning(trees, at, es[1..], limit);
      if es[0].kind.Tree? {
        var first := Pending(es[0].sha, Join(at.prefix, es[0].path), at.depth + 1);
        assert Children(at, es) == [first] + rest;
        assert forall q :: q in Children(at, es) <==> q == first || q in rest;
      } else {
        assert Children(at, es) == rest;
      }
    }
  }

  lemma RebaseRebase(outer: string, name: string, es: seq<Entry>)
    requires name != ""
    ensures Rebase(outer, Rebase(name, es)) == Rebase(Join(outer, name), es)
  {
    var a, b := Rebase(outer, Rebase(name, es)), Rebase(Join(outer, name), es);
    forall i | 0 <= i < |es| ensures a[i] == b[i] {
      if outer != "" {
        assert outer + "/" + (name + "/" + es[i].path) == (outer + "/" + name) + "/" + es[i].path;
      }
    }
  }

  lemma RebaseConcat(prefix: string, a: seq<Entry>, b: seq<Entry>)
    ensures Rebase(prefix, a + b) == Rebase(prefix, a) + Rebase(prefix, b)
  {
  }

  lemma {:induction false} OwedConcat(trees: Trees, a: seq<Pending>, b: seq<Pending>)
    requires ValidTrees(trees)
    requires forall q | q in a + b :: q.sha in trees
    ensures forall q | q in a :: q in a + b
    ensures forall q | q in b :: q in a + b
    ensures Owed(trees, a + b) == Owed(trees, a) + Owed(trees, b)
  {
    if a == [] {
      assert a + b == b;
    } else {
      assert (a + b)[1..] == a[1..] + b;
      OwedConcat(trees, a[1..], b);
    }
  }

  lemma Shuffle(prefix: string, e: Entry, below: seq<Entry>, rest: seq<Entry>, es: seq<Entry>, owed: seq<Entry>)
    requires multiset(Rebase(prefix, rest)) == multiset(Rebase(prefix, es)) + multiset(owed)
    ensures multiset(Rebase(prefix, [e] + below + rest))
         == multiset(Rebase(prefix, [e] + es)) + multiset(Rebase(prefix, below) + owed)
  {
    RebaseConcat(prefix, [e] + below, rest);
    RebaseConcat(prefix, [e], below);
    RebaseConcat(prefix, [e], es);
  }

  /** A tree's listing is its own entries together with the listings of its subtrees. */
  lemma {:induction false} ListingUnfolds(trees: Trees, at: Pending, es: seq<Entry>)
    requires ValidTrees(trees) && ValidTree(trees, at.sha, es)
    requires forall q | q in Children(at, es) :: q.sha in trees
    ensures multiset(Rebase(at.prefix, ListingOf(trees, at.sha, es)))
         == multiset(Rebase(at.prefix, es)) + multiset(Owed(trees, Children(at, es)))
  {
    if es != [] {
      var e, tail := es[0], es[1..];
      var below := if e.kind.Tree? then Rebase(e.path, Listing(trees, e.sha)) else [];
      OwedUnfolds(trees, at, es, below);
      ListingUnfolds(trees, at, tail);
      var listing, owed := ListingOf(trees, at.sha, tail), Owed(trees, Children(at, tail));
      Shuffle(at.prefix, e, below, listing, tail, owed);
      assert ListingOf(trees, at.sha, es) == [e] + below + listing && es == [e] + tail;
    }
  }

  /** What the subtrees of a tree owe begins with what stands below its first entry. */
  lemma {:induction false} OwedUnfolds(trees: Trees, at: Pending, es: seq<Entry>, below: seq<Entry>)
    requires ValidTrees(trees) && ValidTree(trees, at.sha, es) && es != []
    requires below == if es[0].kind.Tree? then Rebase(es[0].path, Listing(trees, es[0].sha)) else []
    requires forall q | q in Children(at, es) :: q.sha in trees
    ensures forall q | q in Children(at, es[1..]) :: q in Children(at, es)
    ensures Owed(trees, Children(at, es)) == Rebase(at.prefix, below) + Owed(trees, Children(at, es[1..]))
  {
    var e, kids := es[0], Children(at, es[1..]);
    if e.kind.Tree? {
      var first := Pending(e.sha, Join(at.prefix, e.path), at.depth + 1);
      assert Children(at, es) == [first] + kids && ([first] + kids)[1..] == kids;
      RebaseRebase(at.prefix, e.path, Listing(trees, e.sha));
    } else {
      assert Children(at, es) == kids;
      assert Rebase(at.prefix, []) + Owed(trees, kids) == Owed(trees, kids);
    }
  }

  lemma {:induction false} BlobMapAppend(a: seq<Entry>, e: Entry)
    ensures BlobMap(a + [e]) == if e.kind.Blob? && e.path != "" && e.sha != NO_SHA
                                then BlobMap(a)[e.path := e.sha] else BlobMap(a)
  {
    assert (a + [e])[..|a|] == a;
  }

  /** The loop over the entries of a tree at the deepest level refuses any subtree. */
  lemma {:induction false} VisitTooDeep(at: Pending, es: seq<Entry>, pending: seq<Pending>, entries: map<string, Sha>)
    requires forall e | e in es :: e.path != "" && e.sha != NO_SHA
    requires at.depth >= MAX_DEPTH && Children(at, es) != []
    ensures Visit(at, es, pending, entries) == Err(Unavailable)
  {
    if !es[0].kind.Tree? {
      var p := Join(at.prefix, es[0].path);
      VisitTooDeep(at, es[1..], pending, if es[0].kind.Blob? then entries[p := es[0].sha] else entries);
    }
  }

  /** Otherwise it queues the subtrees and records the blobs. */
  lemma {:induction false} VisitRecords(at: Pending, es: seq<Entry>, pending: seq<Pending>, seen: seq<Entry>)
    requires forall e | e in es :: e.path != "" && e.sha != NO_SHA
    requires at.depth < MAX_DEPTH || Children(at, es) == []
    ensures Visit(at, es, pending, BlobMap(seen))
         == Ok((pending + Children(at, es), BlobMap(seen + Rebase(at.prefix, es))))
  {
    if es == [] {
      assert seen + Rebase(at.prefix, es) == seen;
      assert pending + Children(at, es) == pending;
    } else {
      var e, tail := es[0], es[1..];
      var moved := e.(path := Join(at.prefix, e.path));
      var now := seen + [moved];
      assert now + Rebase(at.prefix, tail) == seen + Rebase(at.prefix, es);
      BlobMapAppend(seen, moved);
      if e.kind.Tree? {
        var child := Pending(e.sha, moved.path, at.depth + 1);
        assert Children(at, es) == [child] + Children(at, tail);
        assert pending + [child] + Children(at, tail) == pending + Children(at, es);
        VisitRecords(at, tail, pending + [child], now);
      } else {
        assert Children(at, es) == Children(at, tail);
        VisitRecords(at, tail, pending, now);
      }
    }
  }

  lemma WalkStarts(trees: Trees, root: Sha)
    requires ValidTrees(trees) && root in trees
    ensures WalkInv(trees, root, Walk([Pending(root, "", 0)], map[], 0))
  {
    var w := Walk([Pending(root, "", 0)], map[], 0);
    var listing := Listing(trees, root);
    assert Rebase("", listing) == listing;
    assert w.pending[1..] == [];
    assert [] + Owed(trees, w.pending) == listing;
    assert w.pending[0] in w.pending;
    assert WalkWitness(trees, root, w, []);
  }

  /** What an honest turn makes of the walk when neither bound is exceeded. */
  lemma {:induction false} AbsorbRecords(
    trees: Trees, w: Walk, seen: seq<Entry>, at: Pending, rest: seq<Pending>, es: seq<Entry>)
    requires ValidTree(trees, at.sha, es) && w == Walk([at] + rest, BlobMap(seen), |seen|)
    requires w.visited + |es| <= MAX_ENTRIES && (at.depth < MAX_DEPTH || Children(at, es) == [])
    ensures var now := seen + Rebase(at.prefix, es);
            Absorb(w, TreeReply(false, es)) == Ok(Walk(rest + Children(at, es), BlobMap(now), |now|))
  {
    assert w.pending[1..] == rest;
    VisitRecords(at, es, rest, seen);
  }

  /** One honest turn keeps the walk's invariant, or the tree is too large or too deep. */
  lemma WalkContinues(trees: Trees, root: Sha, w: Walk)
    requires ValidTrees(trees) && root in trees && WalkInv(trees, root, w) && w.pending != []
    ensures w.pending[0] in w.pending && w.pending[0].sha in trees
    ensures var r := Absorb(w, TreeReply(false, trees[w.pending[0].sha]));
            && (r.Ok? ==> WalkInv(trees, root, r.value))
            && (r.Err? ==> r.error == Unavailable)
            && (r.Err? ==> |Listing(trees, root)| > MAX_ENTRIES || Depth(trees, root) > MAX_DEPTH)
  {
    var seen :| WalkWitness(trees, root, w, seen);
    WalkTurn(trees, root, w, seen);
  }

  lemma {:induction false} WalkTurn(trees: Trees, root: Sha, w: Walk, seen: seq<Entry>)
    requires ValidTrees(trees) && root in trees && WalkWitness(trees, root, w, seen) && w.pending != []
    ensures w.pending[0] in w.pending && w.pending[0].sha in trees
    ensures var r := Absorb(w, TreeReply(false, trees[w.pending[0].sha]));
            && (r.Ok? ==> WalkInv(trees, root, r.value))
            && (r.Err? ==> r.error == Unavailable)
            && (r.Err? ==> |Listing(trees, root)| > MAX_ENTRIES || Depth(trees, root) > MAX_DEPTH)
  {
    var at := w.pending[0];
    assert at in w.pending;
    var es := trees[at.sha];
    if w.visited + |es| > MAX_ENTRIES {
      WalkTooLarge(trees, root, w, seen);
    } else if at.depth >= MAX_DEPTH && Children(at, es) != [] {
      WalkTooDeep(trees, root, w, seen);
    } else {
      WalkAdvances(trees, root, w, seen);
    }
  }

  /** A turn that exceeds neither bound. */
  lemma {:induction false} WalkAdvances(trees: Trees, root: Sha, w: Walk, seen: seq<Entry>)
    requires ValidTrees(trees) && root in trees && WalkWitness(trees, root, w, seen) && w.pending != []
    requires w.pending[0] in w.pending && w.visited + |trees[w.pending[0].sha]| <= MAX_ENTRIES
    requires w.pending[0].depth < MAX_DEPTH || Children(w.pending[0], trees[w.pending[0].sha]) == []
    ensures var r := Absorb(w, TreeReply(false, trees[w.pending[0].sha]));
            r.Ok? && WalkInv(trees, root, r.value)
  {
    var at, rest := w.pending[0], w.pending[1..];
    assert w.pending == [at] + rest;
    AbsorbRecords(trees, w, seen, at, rest, trees[at.sha]);
    WalkContinuesWith(trees, root, w, seen);
  }

  lemma {:induction false} WalkTooLarge(trees: Trees, root: Sha, w: Walk, seen: seq<Entry>)
    requires ValidTrees(trees) && root in trees && WalkWitness(trees, root, w, seen) && w.pending != []
    requires w.pending[0] in w.pending && w.visited + |trees[w.pending[0].sha]| > MAX_ENTRIES
    ensures |Listing(trees, root)| > MAX_ENTRIES
  {
    var at, rest := w.pending[0], w.pending[1..];
    assert w.pending == [at] + rest;
    StillToCome(trees, at, rest, seen, Listing(trees, root));
  }

  /** A listing holds the entries seen and those of the tree whose turn it is. */
  lemma {:induction false} StillToCome(
    trees: Trees, at: Pending, rest: seq<Pending>, seen: seq<Entry>, listing: seq<Entry>)
    requires ValidTrees(trees) && at.sha in trees && at.depth <= MAX_DEPTH
    requires forall q | q in rest :: q.sha in trees
    requires multiset(seen + Owed(trees, [at] + rest)) == multiset(listing)
    ensures |listing| >= |seen| + |trees[at.sha]|
  {
    var es := trees[at.sha];
    Conserved(trees, at, rest, seen);
    AtLeast(seen, Rebase(at.prefix, es), Owed(trees, rest + Children(at, es)), listing);
  }

  lemma AtLeast(a: seq<Entry>, b: seq<Entry>, c: seq<Entry>, all: seq<Entry>)
    requires multiset(a + b + c) == multiset(all)
    ensures |all| >= |a| + |b|
  {
    SameSize(a + b + c, all);
  }

  lemma {:induction false} WalkTooDeep(trees: Trees, root: Sha, w: Walk, seen: seq<Entry>)
    requires ValidTrees(trees) && root in trees && WalkWitness(trees, root, w, seen) && w.pending != []
    requires w.pending[0] in w.pending && w.pending[0].depth >= MAX_DEPTH
    requires Children(w.pending[0], trees[w.pending[0].sha]) != []
    ensures Visit(w.pending[0], trees[w.pending[0].sha], w.pending[1..], w.entries) == Err(Unavailable)
    ensures Depth(trees, root) > MAX_DEPTH
  {
    var at := w.pending[0];
    ChildrenMeaning(trees, at, trees[at.sha], MAX_DEPTH);
    VisitTooDeep(at, trees[at.sha], w.pending[1..], w.entries);
  }

  lemma {:induction false} Conserved(trees: Trees, at: Pending, rest: seq<Pending>, seen: seq<Entry>)
    requires ValidTrees(trees) && at.sha in trees && at.depth <= MAX_DEPTH
    requires forall q | q in rest :: q.sha in trees
    ensures var es := trees[at.sha];
            && (forall q | q in rest + Children(at, es) :: q.sha in trees)
            && multiset(seen + Rebase(at.prefix, es) + Owed(trees, rest + Children(at, es)))
            == multiset(seen + Owed(trees, [at] + rest))
  {
    var es := trees[at.sha];
    ChildrenMeaning(trees, at, es, MAX_DEPTH);
    ListingUnfolds(trees, at, es);
    OwedConcat(trees, rest, Children(at, es));
    assert ([at] + rest)[1..] == rest;
    Regroup(seen, Rebase(at.prefix, es), Rebase(at.prefix, Listing(trees, at.sha)), Owed(trees, rest),
            Owed(trees, Children(at, es)));
  }

  lemma Regroup(seen: seq<Entry>, own: seq<Entry>, listing: seq<Entry>, rest: seq<Entry>, kids: seq<Entry>)
    requires multiset(listing) == multiset(own) + multiset(kids)
    ensures multiset(seen + own + (rest + kids)) == multiset(seen + (listing + rest))
  {
  }

  lemma {:induction false} WalkContinuesWith(trees: Trees, root: Sha, w: Walk, seen: seq<Entry>)
    requires ValidTrees(trees) && root in trees && WalkWitness(trees, root, w, seen) && w.pending != []
    requires w.pending[0] in w.pending
    requires w.pending[0].depth < MAX_DEPTH || Children(w.pending[0], trees[w.pending[0].sha]) == []
    ensures var at := w.pending[0];
            var now := seen + Rebase(at.prefix, trees[at.sha]);
            WalkWitness(trees, root, Walk(w.pending[1..] + Children(at, trees[at.sha]), BlobMap(now), |now|), now)
  {
    var at, rest := w.pending[0], w.pending[1..];
    assert w.pending == [at] + rest;
    var es := trees[at.sha];
    var kids := Children(at, es);
    var now := seen + Rebase(at.prefix, es);
    ChildrenMeaning(trees, at, es, MAX_DEPTH);
    Conserved(trees, at, rest, seen);
    assert forall q :: q in rest + kids <==> q in rest || q in kids;
    assert forall q :: q in w.pending <==> q == at || q in rest;
    assert Depth(trees, at.sha) == DepthOf(trees, at.sha, es);
  }

  lemma SameSize(a: seq<Entry>, b: seq<Entry>)
    requires multiset(a) == multiset(b)
    ensures |a| == |b|
  {
    assert |multiset(a)| == |a| && |multiset(b)| == |b|;
  }

  /** An exhausted walk holds the recursive listing's map, and neither bound was exceeded. */
  lemma WalkEnds(trees: Trees, root: Sha, w: Walk)
    requires ValidTrees(trees) && root in trees && WalkInv(trees, root, w) && w.pending == []
    ensures w.entries == Flat(trees, root)
    ensures w.visited == |Listing(trees, root)|
    ensures Depth(trees, root) <= MAX_DEPTH
  {
    var seen :| WalkWitness(trees, root, w, seen);
    assert seen + Owed(trees, w.pending) == seen;
    SameSize(seen, Listing(trees, root));
    ListingIsDistinct(trees, root, trees[root]);
    SameEntriesSameMap(seen, Listing(trees, root));
  }

  /** A turn uses up budget: every queued tree was itself one of the counted entries. */
  lemma {:induction false} VisitQueues(at: Pending, es: seq<Entry>, pending: seq<Pending>, entries: map<string, Sha>)
    ensures var r := Visit(at, es, pending, entries);
            r.Ok? ==> |r.value.0| <= |pending| + |es|
  {
    if es != [] && es[0].path != "" && es[0].sha != NO_SHA {
      var p := Join(at.prefix, es[0].path);
      match es[0].kind
      case Blob => VisitQueues(at, es[1..], pending, entries[p := es[0].sha]);
      case Tree => VisitQueues(at, es[1..], pending + [Pending(es[0].sha, p, at.depth + 1)], entries);
      case Other => VisitQueues(at, es[1..], pending, entries);
    }
  }

  // ---------------------------------------------------------------------------
  // The client
  // ---------------------------------------------------------------------------

  /** The server's answers: request number, tree id and whether `recursive=1` was asked for. */
  type TreeServer = (nat, Sha, bool) -> Result<TreeReply>

  /** A server that tells the truth about `trees`, but may decline the recursive form of `root`. */
  ghost predicate Honest(server: TreeServer, trees: Trees, root: Sha)
    requires ValidTrees(trees) && root in trees
  {
    && (forall n: nat, t: Sha | t in trees :: server(n, t, false) == Ok(TreeReply(false, trees[t])))
    && (ListsRecursively(server, root) ==> server(0, root, true).value.tree == Listing(trees, root))
    && (server(0, root, true).Err? ==> server(0, root, true).error == TooLarge)
  }

  ghost predicate ListsRecursively(server: TreeServer, root: Sha) {
    server(0, root, true).Ok? && !server(0, root, true).value.truncated
  }

  /** The loop over the entries of one tree: subtrees are queued, blobs recorded. */
  method VisitEntries(current: Pending, tree: seq<Entry>, pending: seq<Pending>, entries: map<string, Sha>)
    returns (r: Result<(seq<Pending>, map<string, Sha>)>)
    ensures r == Visit(current, tree, pending, entries)
  {
    var queue: seq<Pending>, found: map<string, Sha> := pending, entries;
    for i := 0 to |tree|
      invariant Visit(current, tree[i..], queue, found) == Visit(current, tree, pending, entries)
    {
      var entry := tree[i];
      assert tree[i..][1..] == tree[i + 1..];
      if entry.path == "" || entry.sha == NO_SHA {
        return Err(Corrupt);
      }
      var recordPath := Join(current.prefix, entry.path);
      match entry.kind {
        case Blob =>
          found := found[recordPath := entry.sha];
        case Tree =>
          if current.depth >= MAX_DEPTH {
            return Err(Unavailable);
          }
          queue := queue + [Pending(entry.sha, recordPath, current.depth + 1)];
        case Other =>
      }
    }
    assert tree[|tree|..] == [];
    r := Ok((queue, found));
  }

  /** The walk of `loadTreeEntries`.  `asked` counts its tree requests. */
  method WalkTree(server: TreeServer, root: Sha, ghost trees: Trees)
    returns (r: Result<map<string, Sha>>, asked: nat)
    ensures asked <= MAX_ENTRIES + 1
    ensures ValidTrees(trees) && root in trees && Honest(server, trees, root) ==>
              r == if |Listing(trees, root)| <= MAX_ENTRIES && Depth(trees, root) <= MAX_DEPTH
                   then Ok(Flat(trees, root)) else Err(Unavailable)
  {
    asked := 0;
    var pending := [Pending(root, "", 0)];
    var entries: map<string, Sha> := map[];
    var visited: nat := 0;
    ghost var honest := ValidTrees(trees) && root in trees && Honest(server, trees, root);
    if honest {
      WalkStarts(trees, root);
    }
    while |pending| > 0
      invariant visited <= MAX_ENTRIES
      invariant asked + |pending| <= 1 + visited
      invariant honest ==> WalkInv(trees, root, Walk(pending, entries, visited))
      decreases MAX_ENTRIES - visited + |pending|
    {
      ghost var before := Walk(pending, entries, visited);
      if honest {
        WalkContinues(trees, root, before);
      }
      var current := pending[0];
      pending := pending[1..];
      var answer := server(1 + asked, current.sha, false);
      asked := asked + 1;
      if answer.Err? {
        return Err(answer.error), asked;
      }
      if answer.value.truncated {
        return Err(Unavailable), asked;
      }
      var tree := answer.value.tree;
      visited := visited + |tree|;
      if visited > MAX_ENTRIES {
        return Err(Unavailable), asked;
      }
      VisitQueues(current, tree, pending, entries);
      var turn := VisitEntries(current, tree, pending, entries);
      if turn.Err? {
        return Err(turn.error), asked;
      }
      pending, entries := turn.value.0, turn.value.1;
    }
    if honest {
      WalkEnds(trees, root, Walk(pending, entries, visited));
    }
    return Ok(entries), asked;
  }

  /** `loadTreeEntries`.  `asked` counts the tree requests of the walk's loop.
      Whatever the server answers the walk ends, after at most MAX_ENTRIES + 1 of them; an honest
      server yields the listing's map, on the same size bound in both forms. */
  method LoadTreeEntries(server: TreeServer, root: Sha, ghost trees: Trees)
    returns (r: Result<map<string, Sha>>, asked: nat)
    ensures asked <= MAX_ENTRIES + 1
    ensures ListsRecursively(server, root) ==> asked == 0
    ensures server(0, root, true).Err? && server(0, root, true).error != TooLarge ==>
              r == Err(server(0, root, true).error) && asked == 0
    ensures ValidTrees(trees) && root in trees && Honest(server, trees, root) ==>
              r == if |Listing(trees, root)| <= MAX_ENTRIES
                      && (ListsRecursively(server, root) || Depth(trees, root) <= MAX_DEPTH)
                   then Ok(Flat(trees, root))
                   else Err(Unavailable)
  {
    asked := 0;
    var whole := server(0, root, true);
    if whole.Ok? && !whole.value.truncated {
      if |whole.value.tree| > MAX_ENTRIES {
        return Err(Unavailable), asked;
      }
      var listed := BlobEntries(whole.value.tree, "");
      return Ok(listed), asked;
    }
    if whole.Err? && whole.error != TooLarge {
      return Err(whole.error), asked;
    }
    r, asked := WalkTree(server, root, trees);
  }
}
