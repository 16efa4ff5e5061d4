/** Optimistic transactions over a Git branch.

    Any number of concurrent `UpdateRevision` calls share one server.  Every request is one step of
    the system; between two requests of one call any other call may take steps.  What is assumed of
    the server is written in `ValidServer` and in the cases of `Step`: objects never change, a commit
    gets a fresh id, a ref that is moved without force moves only to a descendant, and a tree posted
    over a base tree is the base's path map overridden by the posted paths.  A request may also fail
    without effect, or take effect and be reported to the caller as an error. */
module GitTransactions {
  import opened GitTrees
  import opened Wrappers

  type Bytes = seq<bv8>

  datatype Commit = Commit(tree: Sha, parents: seq<Sha>)

  datatype Server = Server(blobs: map<Sha, Bytes>, trees: Trees, commits: map<Sha, Commit>, head: Sha)

  ghost predicate ValidServer(s: Server) {
    && ValidTrees(s.trees)
    && (forall t, e | t in s.trees && e in s.trees[t] && e.kind.Blob? :: e.sha in s.blobs)
    && (forall c | c in s.commits :: s.commits[c].tree in s.trees)
    && (forall c, p | c in s.commits && p in s.commits[c].parents :: p in s.commits && p < c)
    && s.head in s.commits
  }

  /** A tree as a map from paths to contents. */
  ghost function Files(s: Server, t: Sha): map<string, Bytes>
    requires ValidServer(s) && t in s.trees
  {
    FlatInBlobs(s, t);
    var flat := Flat(s.trees, t);
    map p | p in flat :: s.blobs[flat[p]]
  }

  ghost function FilesAt(s: Server, c: Sha): map<string, Bytes>
    requires ValidServer(s) && c in s.commits
  {
    Files(s, s.commits[c].tree)
  }

  lemma FlatInBlobs(s: Server, t: Sha)
    requires ValidServer(s) && t in s.trees
    ensures forall p | p in Flat(s.trees, t) :: Flat(s.trees, t)[p] in s.blobs
  {
    var listing := Listing(s.trees, t);
    ListingInBlobs(s, t, s.trees[t]);
    ListingIsDistinct(s.trees, t, s.trees[t]);
    forall p | p in BlobMap(listing) ensures BlobMap(listing)[p] in s.blobs {
      BlobMapMeaning(listing, p);
    }
  }

  lemma {:induction false} ListingInBlobs(s: Server, t: Sha, es: seq<Entry>)
    requires ValidServer(s) && ValidTree(s.trees, t, es)
    requires forall e | e in es && e.kind.Blob? :: e.sha in s.blobs
    ensures forall x | x in ListingOf(s.trees, t, es) && x.kind.Blob? :: x.sha in s.blobs
    decreases t, |es|
  {
    if es != [] {
      var e := es[0];
      ListingInBlobs(s, t, es[1..]);
      if e.kind.Tree? {
        ListingInBlobs(s, e.sha, s.trees[e.sha]);
        var sub := Listing(s.trees, e.sha);
        forall x | x in Rebase(e.path, sub) && x.kind.Blob? ensures x.sha in s.blobs {
          var i :| 0 <= i < |sub| && x == Rebase(e.path, sub)[i];
          assert sub[i] in sub;
        }
      }
    }
  }

  ghost predicate Includes<K(!new), V>(small: map<K, V>, large: map<K, V>) {
    forall k | k in small :: k in large && large[k] == small[k]
  }

  ghost predicate IsAncestor(commits: map<Sha, Commit>, a: Sha, c: Sha)
    decreases c
  {
    && c in commits
    && (a == c || exists p :: p in commits[c].parents && p < c && IsAncestor(commits, a, p))
  }

  // ---------------------------------------------------------------------------
  // Mutations
  // ---------------------------------------------------------------------------

  datatype ReadResult = Missing | Found(content: Bytes) | Failed(error: Error)

  /** A mutation reads paths of its snapshot one request at a time, then returns its changes or an
      error.  It may behave differently on every attempt. */
  datatype Program =
    | Return(changes: map<string, Bytes>)
    | Abort(error: Error)
    | Read(path: string, next: ReadResult -> Program)

  type Mutation = (nat, Sha, set<string>) -> Program

  ghost predicate Truthful(files: map<string, Bytes>, path: string, r: ReadResult) {
    match r
    case Missing => path !in files
    case Found(content) => path in files && files[path] == content
    case Failed(_) => path in files
  }

  /** Running `p` on `files` alone, with these answers to its reads, reaches `q`. */
  ghost predicate Runs(files: map<string, Bytes>, p: Program, replies: seq<ReadResult>, q: Program)
    decreases |replies|
  {
    if replies == [] then p == q
    else
      && p.Read?
      && Truthful(files, p.path, replies[0])
      && Runs(files, p.next(replies[0]), replies[1..], q)
  }

  lemma {:induction false} RunsFurther(
      files: map<string, Bytes>, p: Program, replies: seq<ReadResult>, q: Program, r: ReadResult)
    requires Runs(files, p, replies, q) && q.Read? && Truthful(files, q.path, r)
    ensures Runs(files, p, replies + [r], q.next(r))
    decreases |replies|
  {
    if replies == [] {
      assert ([] + [r])[1..] == [];
    } else {
      RunsFurther(files, p.next(replies[0]), replies[1..], q, r);
      assert (replies + [r])[1..] == replies[1..] + [r];
    }
  }

  // ---------------------------------------------------------------------------
  // Calls
  // ---------------------------------------------------------------------------

  datatype Snap = Snap(head: Sha, tree: Sha, entries: map<string, Sha>)

  datatype Outcome = Committed(revision: Sha) | Unchanged(revision: Sha) | Rejected(error: Error)

  /** Where a call stands: the request it is about to make, or its result. */
  datatype Phase =
    | GetRef
    | GetCommit(head: Sha)
    | GetListing(head: Sha, tree: Sha)
    | GetSubtree(head: Sha, tree: Sha, walk: Walk)
    | Mutating(snap: Snap, prog: Program)
    | Uploading(snap: Snap, changes: map<string, Bytes>, uploaded: map<string, Sha>)
    | PostCommit(snap: Snap, changes: map<string, Bytes>, newTree: Sha)
    | PatchRef(snap: Snap, changes: map<string, Bytes>, commit: Sha)
    | Done(outcome: Outcome)

  /** `since`, `replies` and `lost` only record the past: the index of the head when the call began,
      what this attempt's mutation was told, and how often a PATCH took effect but was reported as
      an error. */
  datatype Call = Call(
    mutation: Mutation, maxRetries: nat, attempt: nat, phase: Phase,
    since: nat, replies: seq<ReadResult>, lost: nat)

  predicate Retryable(e: Error) {
    e.Conflict? || e.Unavailable? || e.TooLarge?
  }

  function GiveUp(lastErr: Error): Outcome {
    Rejected(if lastErr == Conflict then Conflict else Unavailable)
  }

  function NewCall(mutation: Mutation, maxRetries: nat, since: nat): Call {
    Call(mutation, maxRetries, 0,
         if 0 < maxRetries then GetRef else Done(GiveUp(Unavailable)), since, [], 0)
  }

  /** The end of a failed attempt in the retry loop. */
  function NextAttempt(c: Call, e: Error): Call {
    c.(attempt := c.attempt + 1, replies := [],
       phase := if c.attempt + 1 < c.maxRetries then GetRef else Done(GiveUp(e)))
  }

  function StartMutation(c: Call, snap: Snap): Call {
    c.(phase := Mutating(snap, c.mutation(c.attempt, snap.head, snap.entries.Keys)), replies := [])
  }

  function StartWalk(c: Call): Call
    requires c.phase.GetListing?
  {
    c.(phase := GetSubtree(c.phase.head, c.phase.tree, Walk([Pending(c.phase.tree, "", 0)], map[], 0)))
  }

  /** The mutation is told the outcome of its read. */
  function Told(c: Call, r: ReadResult): Call
    requires c.phase.Mutating? && c.phase.prog.Read?
  {
    c.(phase := c.phase.(prog := c.phase.prog.next(r)), replies := c.replies + [r])
  }

  predicate Requesting(phase: Phase) {
    !phase.Done? && (phase.Mutating? ==> phase.prog.Read? && phase.prog.path in phase.snap.entries)
  }

  /** The call's request is answered with an error. */
  function OnError(c: Call, e: Error): Call
    requires Requesting(c.phase)
  {
    match c.phase
    case GetRef => NextAttempt(c, e)
    case GetCommit(_) => NextAttempt(c, e)
    case GetListing(_, _) => if e == TooLarge then StartWalk(c) else NextAttempt(c, e)
    case GetSubtree(_, _, _) => NextAttempt(c, e)
    case Mutating(_, _) => Told(c, Failed(e))
    case _ => if Retryable(e) then NextAttempt(c, e) else c.(phase := Done(Rejected(e)))
  }

  // ---------------------------------------------------------------------------
  // The system
  // ---------------------------------------------------------------------------

  /** An accepted change of the branch. */
  datatype Txn = Txn(
    id: nat, attempt: nat, mutation: Mutation, replies: seq<ReadResult>,
    base: Sha, changes: map<string, Bytes>, commit: Sha)

  datatype System = System(server: Server, calls: map<nat, Call>, heads: seq<Sha>, log: seq<Txn>)

  datatype Event =
    | Begin(mutation: Mutation, maxRetries: nat)
    | Fails(error: Error)
    | RefRead
    | CommitRead
    | ListingRead(truncated: bool)
    | SubtreeRead
    | BlobRead
    | Think
    | BlobPosted(path: string, sha: Sha, report: Option<Error>)
    | TreePosted(trees: Trees, sha: Sha, report: Option<Error>)
    | CommitPosted(sha: Sha, report: Option<Error>)
    | RefMoved(report: Option<Error>)

  ghost predicate Initial(s: System) {
    ValidServer(s.server) && s.calls == map[] && s.heads == [s.server.head] && s.log == []
  }

  /** A request of a call that took effect: the caller sees `next`, or the error in `report`. */
  ghost function Reported(c: Call, report: Option<Error>, next: Call): Call
    requires Requesting(c.phase)
  {
    if report.Some? then OnError(c, report.value) else next
  }

  ghost predicate Step(s: System, id: nat, e: Event, s': System)
    requires ValidServer(s.server)
  {
    if e.Begin? then
      && id !in s.calls && |s.heads| > 0
      && s' == s.(calls := s.calls[id := NewCall(e.mutation, e.maxRetries, |s.heads| - 1)])
    else
      && id in s.calls
      && CallStep(s, id, s.calls[id], e, s')
  }

  ghost predicate CallStep(s: System, id: nat, c: Call, e: Event, s': System)
    requires ValidServer(s.server)
  {
    match e
    case Begin(_, _) => false
    case Fails(error) => Requesting(c.phase) && s' == s.(calls := s.calls[id := OnError(c, error)])
    case RefRead => ReadStep(s, id, c, e, s')
    case CommitRead => ReadStep(s, id, c, e, s')
    case ListingRead(_) => ReadStep(s, id, c, e, s')
    case SubtreeRead => ReadStep(s, id, c, e, s')
    case BlobRead => ReadStep(s, id, c, e, s')
    case Think => c.phase.Mutating? && s' == s.(calls := s.calls[id := Thought(c)])
    case BlobPosted(_, _, _) => PostBlobStep(s, id, c, e, s')
    case TreePosted(_, _, _) => PostTreeStep(s, id, c, e, s')
    case CommitPosted(_, _) => PostCommitStep(s, id, c, e, s')
    case RefMoved(_) => PatchStep(s, id, c, e, s')
  }

  /** A GET that is answered with what the server holds. */
  ghost predicate ReadStep(s: System, id: nat, c: Call, e: Event, s': System)
    requires ValidServer(s.server)
  {
    match (c.phase, e)
    case (GetRef, RefRead) =>
      s' == s.(calls := s.calls[id := c.(phase := GetCommit(s.server.head))])
    case (GetCommit(head), CommitRead) =>
      && head in s.server.commits
      && s' == s.(calls := s.calls[id := c.(phase := GetListing(head, s.server.commits[head].tree))])
    case (GetListing(head, tree), ListingRead(truncated)) =>
      && tree in s.server.trees
      && s' == s.(calls := s.calls[id := Listed(c, s.server.trees, truncated)])
    case (GetSubtree(head, tree, walk), SubtreeRead) =>
      && walk.pending != [] && walk.pending[0].sha in s.server.trees
      && s' == s.(calls := s.calls[id := Walked(c, s.server.trees[walk.pending[0].sha])])
    case (Mutating(snap, prog), BlobRead) =>
      && prog.Read? && prog.path in snap.entries && snap.entries[prog.path] in s.server.blobs
      && s' == s.(calls := s.calls[id := Told(c, Found(s.server.blobs[snap.entries[prog.path]]))])
    case _ => false
  }

  /** The answer to the recursive form of the tree request. */
  ghost function Listed(c: Call, trees: Trees, truncated: bool): Call
    requires c.phase.GetListing? && ValidTrees(trees) && c.phase.tree in trees
  {
    if truncated then StartWalk(c)
    else if |Listing(trees, c.phase.tree)| > MAX_ENTRIES then NextAttempt(c, Unavailable)
    else StartMutation(c, Snap(c.phase.head, c.phase.tree, Flat(trees, c.phase.tree)))
  }

  /** The answer for the first pending tree of the walk. */
  ghost function Walked(c: Call, tree: seq<Entry>): Call
    requires c.phase.GetSubtree? && c.phase.walk.pending != []
  {
    match Absorb(c.phase.walk, TreeReply(false, tree))
    case Err(error) => NextAttempt(c, error)
    case Ok(w) =>
      if w.pending == [] then StartMutation(c, Snap(c.phase.head, c.phase.tree, w.entries))
      else c.(phase := c.phase.(walk := w))
  }

  /** What the mutation does without a request: a read of an absent path, or its return. */
  function Thought(c: Call): Call
    requires c.phase.Mutating?
  {
    match c.phase.prog
    case Read(path, _) => if path in c.phase.snap.entries then c else Told(c, Missing)
    case Abort(error) => if Retryable(error) then NextAttempt(c, error)
                         else c.(phase := Done(Rejected(error)))
    case Return(changes) => if changes == map[] then c.(phase := Done(Unchanged(c.phase.snap.head)))
                            else c.(phase := Uploading(c.phase.snap, changes, map[]))
  }

  ghost predicate PostBlobStep(s: System, id: nat, c: Call, e: Event, s': System) {
    && e.BlobPosted? && c.phase.Uploading?
    && e.path in c.phase.changes && e.path !in c.phase.uploaded
    && e.sha != NO_SHA
    && (e.sha in s.server.blobs ==> s.server.blobs[e.sha] == c.phase.changes[e.path])
    && s' == s.(server := s.server.(blobs := s.server.blobs[e.sha := c.phase.changes[e.path]]),
                calls := s.calls[id := Reported(c, e.report,
                  c.(phase := c.phase.(uploaded := c.phase.uploaded[e.path := e.sha])))])
  }

  ghost predicate PostTreeStep(s: System, id: nat, c: Call, e: Event, s': System)
    requires ValidServer(s.server)
  {
    && e.TreePosted? && c.phase.Uploading?
    && c.phase.uploaded.Keys == c.phase.changes.Keys
    && c.phase.snap.tree in s.server.trees
    && Includes(s.server.trees, e.trees) && e.sha in e.trees
    && ValidServer(s.server.(trees := e.trees))
    && Flat(e.trees, e.sha) == Flat(s.server.trees, c.phase.snap.tree) + c.phase.uploaded
    && s' == s.(server := s.server.(trees := e.trees),
                calls := s.calls[id := Reported(c, e.report,
                  c.(phase := PostCommit(c.phase.snap, c.phase.changes, e.sha)))])
  }

  ghost predicate PostCommitStep(s: System, id: nat, c: Call, e: Event, s': System) {
    && e.CommitPosted? && c.phase.PostCommit?
    && c.phase.newTree in s.server.trees && c.phase.snap.head in s.server.commits
    && (forall k | k in s.server.commits :: k < e.sha)
    && s' == s.(server := s.server.(commits :=
                  s.server.commits[e.sha := Commit(c.phase.newTree, [c.phase.snap.head])]),
                calls := s.calls[id := Reported(c, e.report,
                  c.(phase := PatchRef(c.phase.snap, c.phase.changes, e.sha)))])
  }

  /** The server moves the ref without force only from an ancestor to a descendant. */
  ghost predicate PatchStep(s: System, id: nat, c: Call, e: Event, s': System) {
    && e.RefMoved? && c.phase.PatchRef?
    && IsAncestor(s.server.commits, s.server.head, c.phase.commit)
    && (e.report.Some? ==> Retryable(e.report.value))
    && s' == Patched(s, id, c, e.report)
  }

  ghost function Patched(s: System, id: nat, c: Call, report: Option<Error>): System
    requires c.phase.PatchRef?
  {
    s.(server := s.server.(head := c.phase.commit),
       heads := s.heads + [c.phase.commit],
       log := s.log + [Accepted(id, c)],
       calls := s.calls[id := Reported(c, report, c.(phase := Done(Committed(c.phase.commit))))
                              .(lost := c.lost + if report.Some? then 1 else 0)])
  }

  /** The change that the server accepts from a call. */
  function Accepted(id: nat, c: Call): Txn
    requires c.phase.PatchRef?
  {
    Txn(id, c.attempt, c.mutation, c.replies, c.phase.snap.head, c.phase.changes, c.phase.commit)
  }

  /** A run: states joined by steps, from any initial repository. */
  ghost predicate Run(states: seq<System>) {
    && |states| > 0 && Initial(states[0])
    && (forall i | 0 <= i < |states| - 1 :: Steps(states[i], states[i + 1]))
  }

  ghost predicate Steps(s: System, s': System) {
    ValidServer(s.server) && exists id, e :: Step(s, id, e, s')
  }

  // ---------------------------------------------------------------------------
  // The invariant
  // ---------------------------------------------------------------------------

  ghost predicate SnapInv(s: Server, heads: seq<Sha>, since: nat, snap: Snap)
    requires ValidServer(s)
  {
    && ReadHead(s, heads, since, snap.head)
    && s.commits[snap.head].tree == snap.tree
    && snap.entries == Flat(s.trees, snap.tree)
  }

  /** A head read by a call was the head at some moment of that call. */
  ghost predicate ReadHead(s: Server, heads: seq<Sha>, since: nat, head: Sha) {
    head in s.commits && since < |heads| && head in heads[since..]
  }

  ghost predicate RunsOn(s: Server, c: Call, snap: Snap, q: Program)
    requires ValidServer(s) && snap.tree in s.trees
  {
    Runs(Files(s, snap.tree), c.mutation(c.attempt, snap.head, snap.entries.Keys), c.replies, q)
  }

  ghost predicate CallInv(s: Server, heads: seq<Sha>, c: Call)
    requires ValidServer(s)
  {
    && c.attempt <= c.maxRetries
    && c.lost <= c.attempt
    && c.since < |heads|
    && (!c.phase.Done? || c.phase.outcome.Committed? ==> c.attempt < c.maxRetries)
    && match c.phase
       case GetRef => true
       case GetCommit(head) => ReadHead(s, heads, c.since, head)
       case GetListing(head, tree) =>
         ReadHead(s, heads, c.since, head) && s.commits[head].tree == tree
       case GetSubtree(head, tree, walk) =>
         && ReadHead(s, heads, c.since, head) && s.commits[head].tree == tree
         && WalkInv(s.trees, tree, walk) && walk.pending != []
       case Mutating(snap, prog) => SnapInv(s, heads, c.since, snap) && RunsOn(s, c, snap, prog)
       case Uploading(snap, changes, uploaded) =>
         && SnapInv(s, heads, c.since, snap) && changes != map[] && RunsOn(s, c, snap, Return(changes))
         && uploaded.Keys <= changes.Keys
         && (forall p | p in uploaded :: uploaded[p] in s.blobs && s.blobs[uploaded[p]] == changes[p])
       case PostCommit(snap, changes, newTree) =>
         && SnapInv(s, heads, c.since, snap) && changes != map[] && RunsOn(s, c, snap, Return(changes))
         && newTree in s.trees && Files(s, newTree) == Files(s, snap.tree) + changes
       case PatchRef(snap, changes, commit) =>
         && SnapInv(s, heads, c.since, snap) && changes != map[] && RunsOn(s, c, snap, Return(changes))
         && commit in s.commits && commit !in heads
         && s.commits[commit].parents == [snap.head]
         && FilesAt(s, commit) == Files(s, snap.tree) + changes
       case Done(Committed(revision)) => revision in heads[c.since..]
       case Done(Unchanged(revision)) => revision in heads[c.since..]
       case Done(Rejected(_)) => true
  }

  /** One accepted change: its commit's only parent is the head before it, and its changes are what
      its mutation returns when run on that head's files alone. */
  ghost predicate TxnInv(s: Server, t: Txn, from: Sha, to: Sha)
    requires ValidServer(s) && from in s.commits && to in s.commits
  {
    && t.base == from && t.commit == to
    && s.commits[to].parents == [from]
    && t.changes != map[]
    && FilesAt(s, to) == FilesAt(s, from) + t.changes
    && Runs(FilesAt(s, from), t.mutation(t.attempt, from, FilesAt(s, from).Keys), t.replies, Return(t.changes))
  }

  ghost predicate HistoryInv(s: Server, heads: seq<Sha>, log: seq<Txn>)
    requires ValidServer(s)
  {
    && |heads| == |log| + 1
    && heads[|log|] == s.head
    && (forall i | 0 <= i < |heads| :: heads[i] in s.commits)
    && (forall i | 0 <= i < |log| :: TxnInv(s, log[i], heads[i], heads[i + 1]))
  }

  function Advances(log: seq<Txn>, id: nat): nat {
    if log == [] then 0
    else Advances(log[..|log| - 1], id) + if log[|log| - 1].id == id then 1 else 0
  }

  predicate CommittedCall(c: Call) {
    c.phase.Done? && c.phase.outcome.Committed?
  }

  /** Every advance a call made was lost on it, except the one whose revision it returns. */
  ghost predicate Ledger(c: Call, id: nat, log: seq<Txn>) {
    && Advances(log, id) == c.lost + (if CommittedCall(c) then 1 else 0)
    && (CommittedCall(c) ==> exists k :: c.since <= k < |log| && Made(log[k], id, c.phase.outcome.revision))
  }

  predicate Made(t: Txn, id: nat, revision: Sha) {
    t.id == id && t.commit == revision
  }

  ghost predicate LedgerInv(calls: map<nat, Call>, log: seq<Txn>) {
    && (forall id | id !in calls :: Advances(log, id) == 0)
    && (forall id | id in calls :: Ledger(calls[id], id, log))
    && (forall k | 0 <= k < |log| :: log[k].id in calls && log[k].mutation == calls[log[k].id].mutation)
  }

  ghost predicate OwnCommits(calls: map<nat, Call>) {
    forall i, j | i in calls && j in calls && i != j && calls[i].phase.PatchRef? && calls[j].phase.PatchRef? ::
      calls[i].phase.commit != calls[j].phase.commit
  }

  ghost predicate CallsInv(s: Server, heads: seq<Sha>, calls: map<nat, Call>)
    requires ValidServer(s)
  {
    forall id | id in calls :: CallInv(s, heads, calls[id])
  }

  ghost predicate Inv(s: System) {
    && ValidServer(s.server)
    && HistoryInv(s.server, s.heads, s.log)
    && LedgerInv(s.calls, s.log)
    && OwnCommits(s.calls)
    && CallsInv(s.server, s.heads, s.calls)
  }
}
