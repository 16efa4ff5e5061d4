/** Every run of the transaction system is strictly serializable, the branch only ever grows by
    commits on top of its head, and each call's advances of the branch are accounted for. */
module GitSerializability {
  import opened GitTrees
  import opened GitTransactions
  import opened Wrappers

  // ---------------------------------------------------------------------------
  // Objects never change, so what a call has learned stays true
  // ---------------------------------------------------------------------------

  ghost predicate Grows(s: Server, s': Server) {
    Includes(s.blobs, s'.blobs) && Includes(s.trees, s'.trees) && Includes(s.commits, s'.commits)
  }

  lemma {:induction false} ListingFrame(small: Trees, large: Trees, t: Sha, es: seq<Entry>)
    requires ValidTrees(small) && ValidTrees(large) && Includes(small, large) && ValidTree(small, t, es)
    ensures ValidTree(large, t, es)
    ensures ListingOf(large, t, es) == ListingOf(small, t, es)
    ensures DepthOf(large, t, es) == DepthOf(small, t, es)
    decreases t, |es|
  {
    if es != [] {
      ListingFrame(small, large, t, es[1..]);
      if es[0].kind.Tree? {
        ListingFrame(small, large, es[0].sha, small[es[0].sha]);
      }
    }
  }

  lemma {:induction false} OwedFrame(small: Trees, large: Trees, pending: seq<Pending>)
    requires ValidTrees(small) && ValidTrees(large) && Includes(small, large)
    requires forall q | q in pending :: q.sha in small
    ensures Owed(large, pending) == Owed(small, pending)
  {
    if pending != [] {
      assert pending[0] in pending;
      ListingFrame(small, large, pending[0].sha, small[pending[0].sha]);
      OwedFrame(small, large, pending[1..]);
    }
  }

  lemma WalkFrame(small: Trees, large: Trees, root: Sha, w: Walk)
    requires ValidTrees(small) && ValidTrees(large) && Includes(small, large)
    requires root in small && WalkInv(small, root, w)
    ensures WalkInv(large, root, w)
  {
    var seen :| WalkWitness(small, root, w, seen);
    OwedFrame(small, large, w.pending);
    ListingFrame(small, large, root, small[root]);
    forall q | q in w.pending ensures q.sha in large && Depth(large, q.sha) == Depth(small, q.sha) {
      ListingFrame(small, large, q.sha, small[q.sha]);
    }
    assert WalkWitness(large, root, w, seen);
  }

  lemma FilesFrame(s: Server, s': Server, t: Sha)
    requires ValidServer(s) && ValidServer(s') && Grows(s, s') && t in s.trees
    ensures t in s'.trees
    ensures Flat(s'.trees, t) == Flat(s.trees, t)
    ensures Files(s', t) == Files(s, t)
  {
    ListingFrame(s.trees, s'.trees, t, s.trees[t]);
    FlatInBlobs(s, t);
  }

  lemma SnapFrame(s: Server, s': Server, heads: seq<Sha>, heads': seq<Sha>, since: nat, snap: Snap)
    requires ValidServer(s) && ValidServer(s') && Grows(s, s') && heads <= heads'
    requires SnapInv(s, heads, since, snap)
    ensures SnapInv(s', heads', since, snap)
    ensures Files(s', snap.tree) == Files(s, snap.tree)
  {
    HeadFrame(heads, heads', since, snap.head);
    FilesFrame(s, s', snap.tree);
  }

  lemma HeadFrame(heads: seq<Sha>, heads': seq<Sha>, since: nat, head: Sha)
    requires since < |heads| && heads <= heads' && head in heads[since..]
    ensures head in heads'[since..]
  {
    var i :| since <= i < |heads| && heads[i] == head;
    assert heads'[i] == head && heads'[since..][i - since] == head;
  }

  lemma CallFrame(s: Server, s': Server, heads: seq<Sha>, heads': seq<Sha>, c: Call)
    requires ValidServer(s) && ValidServer(s') && Grows(s, s') && heads <= heads'
    requires CallInv(s, heads, c)
    requires c.phase.PatchRef? ==> c.phase.commit !in heads'
    ensures CallInv(s', heads', c)
  {
    match c.phase
    case GetRef =>
    case GetCommit(head) => HeadFrame(heads, heads', c.since, head);
    case GetListing(head, tree) => HeadFrame(heads, heads', c.since, head);
    case GetSubtree(head, tree, walk) =>
      HeadFrame(heads, heads', c.since, head);
      WalkFrame(s.trees, s'.trees, tree, walk);
    case Mutating(snap, _) => SnapFrame(s, s', heads, heads', c.since, snap);
    case Uploading(snap, _, _) => SnapFrame(s, s', heads, heads', c.since, snap);
    case PostCommit(snap, _, newTree) =>
      SnapFrame(s, s', heads, heads', c.since, snap);
      FilesFrame(s, s', newTree);
    case PatchRef(snap, _, commit) =>
      SnapFrame(s, s', heads, heads', c.since, snap);
      FilesFrame(s, s', s.commits[commit].tree);
    case Done(outcome) =>
      match outcome
      case Committed(revision) => HeadFrame(heads, heads', c.since, revision);
      case Unchanged(revision) => HeadFrame(heads, heads', c.since, revision);
      case Rejected(_) =>
  }

  lemma TxnFrame(s: Server, s': Server, t: Txn, from: Sha, to: Sha)
    requires ValidServer(s) && ValidServer(s') && Grows(s, s')
    requires from in s.commits && to in s.commits && TxnInv(s, t, from, to)
    ensures TxnInv(s', t, from, to)
  {
    FilesFrame(s, s', s.commits[from].tree);
    FilesFrame(s, s', s.commits[to].tree);
  }

  lemma TxnsFrame(s: Server, s': Server, heads: seq<Sha>, log: seq<Txn>)
    requires ValidServer(s) && ValidServer(s') && Grows(s, s') && HistoryInv(s, heads, log)
    ensures forall i | 0 <= i < |heads| :: heads[i] in s'.commits
    ensures forall i | 0 <= i < |log| :: TxnInv(s', log[i], heads[i], heads[i + 1])
  {
    forall i | 0 <= i < |log| ensures TxnInv(s', log[i], heads[i], heads[i + 1]) {
      TxnFrame(s, s', log[i], heads[i], heads[i + 1]);
    }
  }

  lemma HistoryFrame(s: Server, s': Server, heads: seq<Sha>, log: seq<Txn>)
    requires ValidServer(s) && ValidServer(s') && Grows(s, s') && s'.head == s.head
    requires HistoryInv(s, heads, log)
    ensures HistoryInv(s', heads, log)
  {
    TxnsFrame(s, s', heads, log);
  }

  // ---------------------------------------------------------------------------
  // Every step keeps the invariant
  // ---------------------------------------------------------------------------

  /** A step that leaves the branch alone and takes one call to `c'`. */
  lemma CallUpdated(s: System, s': System, id: nat, c': Call)
    requires Inv(s) && id in s.calls
    requires ValidServer(s'.server) && Grows(s.server, s'.server) && s'.server.head == s.server.head
    requires s' == s.(server := s'.server, calls := s.calls[id := c'])
    requires CallInv(s'.server, s.heads, c')
    requires c'.lost == s.calls[id].lost && !CommittedCall(s.calls[id]) && !CommittedCall(c')
    requires c'.phase.PatchRef? ==> c'.phase.commit !in s.server.commits
    requires c'.mutation == s.calls[id].mutation
    ensures Inv(s')
  {
    HistoryFrame(s.server, s'.server, s.heads, s.log);
    PendingCommits(s.server, s.heads, s.calls);
    OthersFrame(s.server, s'.server, s.heads, s.heads, s.calls, id, c');
    LedgerUpdated(s.calls, s.log, id, c');
    OwnCommitsUpdated(s.server, s.calls, id, c');
  }

  lemma LedgerUpdated(calls: map<nat, Call>, log: seq<Txn>, id: nat, c': Call)
    requires LedgerInv(calls, log) && id in calls
    requires c'.lost == calls[id].lost && !CommittedCall(calls[id]) && !CommittedCall(c')
    requires c'.mutation == calls[id].mutation
    ensures LedgerInv(calls[id := c'], log)
  {
    assert Ledger(calls[id], id, log);
  }

  lemma OwnCommitsUpdated(s: Server, calls: map<nat, Call>, id: nat, c': Call)
    requires OwnCommits(calls)
    requires forall i | i in calls && calls[i].phase.PatchRef? :: calls[i].phase.commit in s.commits
    requires c'.phase.PatchRef? ==> c'.phase.commit !in s.commits
    ensures OwnCommits(calls[id := c'])
  {
  }

  lemma PendingCommits(s: Server, heads: seq<Sha>, calls: map<nat, Call>)
    requires ValidServer(s) && CallsInv(s, heads, calls)
    ensures forall i | i in calls && calls[i].phase.PatchRef? ::
              calls[i].phase.commit in s.commits && calls[i].phase.commit !in heads
  {
    forall i | i in calls && calls[i].phase.PatchRef?
      ensures calls[i].phase.commit in s.commits && calls[i].phase.commit !in heads
    {
      assert CallInv(s, heads, calls[i]);
    }
  }

  lemma OthersFrame(s: Server, s': Server, heads: seq<Sha>, heads': seq<Sha>, calls: map<nat, Call>, id: nat, c': Call)
    requires ValidServer(s) && ValidServer(s') && Grows(s, s') && heads <= heads'
    requires CallsInv(s, heads, calls) && CallInv(s', heads', c')
    requires forall i | i in calls && i != id && calls[i].phase.PatchRef? :: calls[i].phase.commit !in heads'
    ensures CallsInv(s', heads', calls[id := c'])
  {
    var after := calls[id := c'];
    forall i | i in after ensures CallInv(s', heads', after[i]) {
      if i != id {
        CallFrame(s, s', heads, heads', calls[i]);
      }
    }
  }

  lemma BeginKeepsLedger(calls: map<nat, Call>, log: seq<Txn>, id: nat, c: Call)
    requires LedgerInv(calls, log) && OwnCommits(calls) && id !in calls
    requires c.lost == 0 && !CommittedCall(c) && !c.phase.PatchRef?
    ensures LedgerInv(calls[id := c], log) && OwnCommits(calls[id := c])
  {
  }

  lemma BeginKeeps(s: System, id: nat, e: Event, s': System)
    requires Inv(s) && e.Begin? && Step(s, id, e, s')
    ensures Inv(s')
  {
    var c := NewCall(e.mutation, e.maxRetries, |s.heads| - 1);
    BeginKeepsLedger(s.calls, s.log, id, c);
    assert CallInv(s.server, s.heads, c);
  }

  /** A call that has no commit of its own and no commit as its result, and otherwise is `c` in another phase. */
  ghost predicate GoesOn(c: Call, c': Call) {
    c'.lost == c.lost && c'.mutation == c.mutation && !CommittedCall(c') && !c'.phase.PatchRef?
  }

  lemma ErrorGoesOn(c: Call, e: Error)
    requires Requesting(c.phase)
    ensures GoesOn(c, OnError(c, e))
  {
  }

  /** An error never leaves a call with a commit of its own or a result it did not earn. */
  lemma ErrorKeeps(s: Server, heads: seq<Sha>, c: Call, e: Error)
    requires ValidServer(s) && CallInv(s, heads, c) && Requesting(c.phase)
    ensures CallInv(s, heads, OnError(c, e)) && GoesOn(c, OnError(c, e))
  {
    ErrorGoesOn(c, e);
    AttemptEnds(s, heads, c, e);
    match c.phase
    case GetListing(_, tree) => WalkStarts(s.trees, tree);
    case Mutating(_, _) => ToldKeeps(s, heads, c, Failed(e));
    case _ =>
  }

  lemma AttemptEnds(s: Server, heads: seq<Sha>, c: Call, e: Error)
    requires ValidServer(s) && c.attempt < c.maxRetries && c.lost <= c.attempt && c.since < |heads|
    ensures CallInv(s, heads, NextAttempt(c, e)) && CallInv(s, heads, c.(phase := Done(Rejected(e))))
  {
  }

  /** A mutation that is told the truth about a path runs on as it would alone. */
  lemma ToldKeeps(s: Server, heads: seq<Sha>, c: Call, r: ReadResult)
    requires ValidServer(s) && CallInv(s, heads, c) && c.phase.Mutating? && c.phase.prog.Read?
    requires Truthful(Files(s, c.phase.snap.tree), c.phase.prog.path, r)
    ensures CallInv(s, heads, Told(c, r))
  {
    var snap, prog := c.phase.snap, c.phase.prog;
    RunsFurther(Files(s, snap.tree), c.mutation(c.attempt, snap.head, snap.entries.Keys), c.replies, prog, r);
  }

  lemma ReadKeeps(s: System, id: nat, e: Event, s': System)
    requires Inv(s) && id in s.calls && ReadStep(s, id, s.calls[id], e, s')
    ensures Inv(s')
  {
    ReadGoesOn(s, id, s.calls[id], e, s');
    ReadCallKeeps(s, id, s.calls[id], e, s');
    CallUpdated(s, s', id, s'.calls[id]);
  }

  /** One more turn of the walk, or its end. */
  lemma WalkedKeeps(s: Server, heads: seq<Sha>, c: Call)
    requires ValidServer(s) && CallInv(s, heads, c) && c.phase.GetSubtree?
    requires c.phase.walk.pending != [] && c.phase.walk.pending[0].sha in s.trees
    ensures var c' := Walked(c, s.trees[c.phase.walk.pending[0].sha]);
            CallInv(s, heads, c')
  {
    var walk := c.phase.walk;
    WalkContinues(s.trees, c.phase.tree, walk);
    var r := Absorb(walk, TreeReply(false, s.trees[walk.pending[0].sha]));
    if r.Ok? && r.value.pending == [] {
      WalkEnds(s.trees, c.phase.tree, r.value);
    }
  }

  lemma ReadGoesOn(s: System, id: nat, c: Call, e: Event, s': System)
    requires ValidServer(s.server) && ReadStep(s, id, c, e, s')
    ensures id in s'.calls && s' == s.(calls := s.calls[id := s'.calls[id]])
    ensures GoesOn(c, s'.calls[id]) && !CommittedCall(c)
  {
  }

  lemma ReadCallKeeps(s: System, id: nat, c: Call, e: Event, s': System)
    requires ValidServer(s.server) && HistoryInv(s.server, s.heads, s.log) && CallInv(s.server, s.heads, c)
    requires ReadStep(s, id, c, e, s')
    ensures id in s'.calls && CallInv(s.server, s.heads, s'.calls[id])
  {
    match c.phase {
      case GetRef =>
        assert s.heads[c.since..][|s.log| - c.since] == s.server.head;
      case GetCommit(_) =>
      case GetListing(_, tree) => WalkStarts(s.server.trees, tree);
      case GetSubtree(_, tree, walk) =>
        WalkedKeeps(s.server, s.heads, c);
      case Mutating(snap, prog) =>
        ToldKeeps(s.server, s.heads, c, Found(s.server.blobs[snap.entries[prog.path]]));
      case _ =>
    }
  }

  lemma ThoughtGoesOn(c: Call)
    requires c.phase.Mutating?
    ensures GoesOn(c, Thought(c))
  {
  }

  lemma ThoughtKeeps(s: Server, heads: seq<Sha>, c: Call)
    requires ValidServer(s) && CallInv(s, heads, c) && c.phase.Mutating?
    ensures CallInv(s, heads, Thought(c))
  {
    match c.phase.prog
    case Read(path, _) =>
      if path !in c.phase.snap.entries {
        ToldKeeps(s, heads, c, Missing);
      }
    case Abort(error) => AttemptEnds(s, heads, c, error);
    case Return(changes) => ReturnKeeps(s, heads, c, changes);
  }

  lemma ReturnKeeps(s: Server, heads: seq<Sha>, c: Call, changes: map<string, Bytes>)
    requires ValidServer(s) && CallInv(s, heads, c) && c.phase.Mutating? && c.phase.prog == Return(changes)
    ensures CallInv(s, heads, Thought(c))
  {
  }

  lemma BlobPostedServer(s: Server, sha: Sha, content: Bytes)
    requires ValidServer(s) && (sha in s.blobs ==> s.blobs[sha] == content)
    ensures var s' := s.(blobs := s.blobs[sha := content]);
            ValidServer(s') && Grows(s, s')
  {
  }

  lemma PostBlobKeeps(s: System, id: nat, e: Event, s': System)
    requires Inv(s) && id in s.calls && PostBlobStep(s, id, s.calls[id], e, s')
    ensures Inv(s')
  {
    var c := s.calls[id];
    BlobPostedServer(s.server, e.sha, c.phase.changes[e.path]);
    CallFrame(s.server, s'.server, s.heads, s.heads, c);
    if e.report.Some? {
      ErrorKeeps(s'.server, s.heads, c, e.report.value);
    }
    CallUpdated(s, s', id, s'.calls[id]);
  }

  lemma PostTreeKeeps(s: System, id: nat, e: Event, s': System)
    requires Inv(s) && id in s.calls && PostTreeStep(s, id, s.calls[id], e, s')
    ensures Inv(s')
  {
    var c := s.calls[id];
    CallFrame(s.server, s'.server, s.heads, s.heads, c);
    if e.report.Some? {
      ErrorKeeps(s'.server, s.heads, c, e.report.value);
    } else {
      FilesFrame(s.server, s'.server, c.phase.snap.tree);
      OverlayFiles(s'.server, c.phase.snap.tree, e.sha, c.phase.uploaded, c.phase.changes);
    }
    CallUpdated(s, s', id, s'.calls[id]);
  }

  /** Overriding ids path by path overrides contents path by path. */
  lemma OverlayFiles(s: Server, base: Sha, t: Sha, uploaded: map<string, Sha>, changes: map<string, Bytes>)
    requires ValidServer(s) && base in s.trees && t in s.trees
    requires Flat(s.trees, t) == Flat(s.trees, base) + uploaded
    requires uploaded.Keys == changes.Keys
    requires forall p | p in uploaded :: uploaded[p] in s.blobs && s.blobs[uploaded[p]] == changes[p]
    ensures Files(s, t) == Files(s, base) + changes
  {
  }

  lemma CommitPostedServer(s: Server, sha: Sha, tree: Sha, parent: Sha)
    requires ValidServer(s) && tree in s.trees && parent in s.commits
    requires forall k | k in s.commits :: k < sha
    ensures var s' := s.(commits := s.commits[sha := Commit(tree, [parent])]);
            ValidServer(s') && Grows(s, s') && sha !in s.commits
  {
  }

  lemma PostCommitKeeps(s: System, id: nat, e: Event, s': System)
    requires Inv(s) && id in s.calls && PostCommitStep(s, id, s.calls[id], e, s')
    ensures Inv(s')
  {
    var c := s.calls[id];
    CommitPostedServer(s.server, e.sha, c.phase.newTree, c.phase.snap.head);
    CallFrame(s.server, s'.server, s.heads, s.heads, c);
    if e.report.Some? {
      ErrorKeeps(s'.server, s.heads, c, e.report.value);
    } else {
      assert e.sha !in s.heads;
    }
    CallUpdated(s, s', id, s'.calls[id]);
  }

  lemma {:induction false} AncestorsAreOlder(commits: map<Sha, Commit>, a: Sha, c: Sha)
    requires IsAncestor(commits, a, c)
    ensures a <= c
    decreases c
  {
    if a != c {
      var p :| p in commits[c].parents && p < c && IsAncestor(commits, a, p);
      AncestorsAreOlder(commits, a, p);
    }
  }

  lemma {:induction false} HeadsIncrease(s: Server, heads: seq<Sha>, log: seq<Txn>, i: nat, j: nat)
    requires ValidServer(s) && HistoryInv(s, heads, log) && i < j < |heads|
    ensures heads[i] < heads[j]
    decreases j
  {
    assert TxnInv(s, log[j - 1], heads[j - 1], heads[j]);
    assert heads[j - 1] in s.commits[heads[j]].parents;
    if i < j - 1 {
      HeadsIncrease(s, heads, log, i, j - 1);
    }
  }

  /** The server accepts a non-forced PATCH only while the head is the one the call started from. */
  lemma PatchMeansHeadUnchanged(s: Server, heads: seq<Sha>, log: seq<Txn>, c: Call)
    requires ValidServer(s) && HistoryInv(s, heads, log) && CallInv(s, heads, c) && c.phase.PatchRef?
    requires IsAncestor(s.commits, s.head, c.phase.commit)
    ensures c.phase.snap.head == s.head
  {
    DescendantOfHead(s, heads, log, c.since, c.phase.snap.head, c.phase.commit);
  }

  /** A commit outside the branch that has the head as an ancestor was made on top of that head. */
  lemma DescendantOfHead(s: Server, heads: seq<Sha>, log: seq<Txn>, since: nat, base: Sha, commit: Sha)
    requires ValidServer(s) && HistoryInv(s, heads, log) && IsAncestor(s.commits, s.head, commit)
    requires since < |heads| && base in heads[since..] && commit in s.commits && commit !in heads
    requires s.commits[commit].parents == [base]
    ensures base == s.head
  {
    assert s.head == heads[|log|] && s.head in heads;
    var p :| p in s.commits[commit].parents && p < commit && IsAncestor(s.commits, s.head, p);
    AncestorsAreOlder(s.commits, s.head, base);
    var i :| since <= i < |heads| && heads[i] == base;
    if i < |log| {
      HeadsIncrease(s, heads, log, i, |log|);
    }
  }

  /** What the accepted commit holds, and how its call came to it. */
  lemma AcceptedTxn(s: Server, s': Server, heads: seq<Sha>, id: nat, c: Call)
    requires ValidServer(s) && CallInv(s, heads, c) && c.phase.PatchRef? && c.phase.snap.head == s.head
    requires s' == s.(head := c.phase.commit)
    ensures ValidServer(s') && Grows(s, s')
    ensures TxnInv(s', Accepted(id, c), s.head, c.phase.commit)
  {
    assert ValidServer(s');
    FilesFrame(s, s', c.phase.snap.tree);
    FilesFrame(s, s', s.commits[c.phase.commit].tree);
    assert FilesAt(s', s.head).Keys == c.phase.snap.entries.Keys;
  }

  lemma PatchKeepsHistory(s: System, id: nat, e: Event, s': System)
    requires Inv(s) && id in s.calls && PatchStep(s, id, s.calls[id], e, s')
    ensures ValidServer(s'.server) && Grows(s.server, s'.server)
    ensures HistoryInv(s'.server, s'.heads, s'.log)
  {
    var c := s.calls[id];
    PatchMeansHeadUnchanged(s.server, s.heads, s.log, c);
    AcceptedTxn(s.server, s'.server, s.heads, id, c);
    HistoryExtends(s.server, s'.server, s.heads, s.log, s'.log[|s.log|]);
  }

  lemma HistoryExtends(s: Server, s': Server, heads: seq<Sha>, log: seq<Txn>, t: Txn)
    requires ValidServer(s) && ValidServer(s') && Grows(s, s') && HistoryInv(s, heads, log)
    requires s'.head == t.commit && TxnInv(s', t, s.head, s'.head)
    ensures HistoryInv(s', heads + [s'.head], log + [t])
  {
    TxnsFrame(s, s', heads, log);
    var heads', log' := heads + [s'.head], log + [t];
    forall i | 0 <= i < |log'| ensures TxnInv(s', log'[i], heads'[i], heads'[i + 1]) {
      if i < |log| {
        assert log'[i] == log[i] && heads'[i] == heads[i] && heads'[i + 1] == heads[i + 1];
      } else {
        assert log'[i] == t && heads'[i] == s.head && heads'[i + 1] == s'.head;
      }
    }
  }

  lemma PatchKeepsLedger(s: System, id: nat, e: Event, s': System)
    requires LedgerInv(s.calls, s.log) && id in s.calls && PatchStep(s, id, s.calls[id], e, s')
    requires |s.heads| == |s.log| + 1 && s.calls[id].since < |s.heads|
    ensures LedgerInv(s'.calls, s'.log)
  {
    var c, c' := s.calls[id], s'.calls[id];
    var t := Accepted(id, c);
    assert s'.log[..|s.log|] == s.log;
    assert Ledger(c, id, s.log);
    if e.report.None? {
      assert Made(s'.log[|s.log|], id, c'.phase.outcome.revision);
    }
    forall i | i in s'.calls ensures Ledger(s'.calls[i], i, s'.log) {
      if i != id {
        LedgerExtends(s.calls[i], i, s.log, t);
      }
    }
  }

  /** The change of another call leaves a call's account as it is. */
  lemma LedgerExtends(c: Call, id: nat, log: seq<Txn>, t: Txn)
    requires Ledger(c, id, log) && t.id != id
    ensures Ledger(c, id, log + [t])
  {
    assert (log + [t])[..|log|] == log;
    if CommittedCall(c) {
      var k :| c.since <= k < |log| && Made(log[k], id, c.phase.outcome.revision);
      assert Made((log + [t])[k], id, c.phase.outcome.revision);
    }
  }

  lemma PatchKeepsCall(s: System, id: nat, e: Event, s': System)
    requires Inv(s) && id in s.calls && PatchStep(s, id, s.calls[id], e, s')
    requires ValidServer(s'.server)
    ensures CallInv(s'.server, s'.heads, s'.calls[id])
    ensures !s'.calls[id].phase.PatchRef?
  {
    var c := s.calls[id];
    assert s'.heads[c.since..][|s.heads| - c.since] == c.phase.commit;
  }

  lemma PatchKeeps(s: System, id: nat, e: Event, s': System)
    requires Inv(s) && id in s.calls && PatchStep(s, id, s.calls[id], e, s')
    ensures Inv(s')
  {
    PatchKeepsHistory(s, id, e, s');
    PatchKeepsLedger(s, id, e, s');
    PatchKeepsCall(s, id, e, s');
    PendingCommits(s.server, s.heads, s.calls);
    PatchKeepsOthers(s, id, e, s');
  }

  lemma PatchKeepsOthers(s: System, id: nat, e: Event, s': System)
    requires ValidServer(s.server) && CallsInv(s.server, s.heads, s.calls) && OwnCommits(s.calls)
    requires id in s.calls && PatchStep(s, id, s.calls[id], e, s')
    requires ValidServer(s'.server) && CallInv(s'.server, s'.heads, s'.calls[id]) && !s'.calls[id].phase.PatchRef?
    requires forall i | i in s.calls && s.calls[i].phase.PatchRef? ::
               s.calls[i].phase.commit in s.server.commits && s.calls[i].phase.commit !in s.heads
    ensures CallsInv(s'.server, s'.heads, s'.calls) && OwnCommits(s'.calls)
  {
    OthersFrame(s.server, s'.server, s.heads, s'.heads, s.calls, id, s'.calls[id]);
    OwnCommitsUpdated(s.server, s.calls, id, s'.calls[id]);
  }

  lemma FailsKeeps(s: System, id: nat, error: Error, s': System)
    requires Inv(s) && id in s.calls && Requesting(s.calls[id].phase)
    requires s' == s.(calls := s.calls[id := OnError(s.calls[id], error)])
    ensures Inv(s')
  {
    ErrorKeeps(s.server, s.heads, s.calls[id], error);
    CallUpdated(s, s', id, OnError(s.calls[id], error));
  }

  lemma ThinkKeeps(s: System, id: nat, s': System)
    requires Inv(s) && id in s.calls && s.calls[id].phase.Mutating?
    requires s' == s.(calls := s.calls[id := Thought(s.calls[id])])
    ensures Inv(s')
  {
    ThoughtGoesOn(s.calls[id]);
    ThoughtKeeps(s.server, s.heads, s.calls[id]);
    CallUpdated(s, s', id, Thought(s.calls[id]));
  }

  lemma PostKeeps(s: System, id: nat, e: Event, s': System)
    requires Inv(s) && id in s.calls && CallStep(s, id, s.calls[id], e, s')
    requires e.BlobPosted? || e.TreePosted? || e.CommitPosted? || e.RefMoved?
    ensures Inv(s')
  {
    match e
    case BlobPosted(_, _, _) => PostBlobKeeps(s, id, e, s');
    case TreePosted(_, _, _) => PostTreeKeeps(s, id, e, s');
    case CommitPosted(_, _) => PostCommitKeeps(s, id, e, s');
    case RefMoved(_) => PatchKeeps(s, id, e, s');
  }

  lemma StepKeeps(s: System, id: nat, e: Event, s': System)
    requires Inv(s) && Step(s, id, e, s')
    ensures Inv(s')
  {
    if e.Begin? {
      BeginKeeps(s, id, e, s');
    } else if e.Fails? {
      FailsKeeps(s, id, e.error, s');
    } else if e.Think? {
      ThinkKeeps(s, id, s');
    } else if e.BlobPosted? || e.TreePosted? || e.CommitPosted? || e.RefMoved? {
      PostKeeps(s, id, e, s');
    } else {
      ReadKeeps(s, id, e, s');
    }
  }

  lemma PostGrows(s: System, id: nat, e: Event, s': System)
    requires ValidServer(s.server) && Step(s, id, e, s')
    requires e.BlobPosted? || e.TreePosted? || e.CommitPosted? || e.RefMoved?
    ensures Grows(s.server, s'.server)
  {
  }

  lemma PostExtends(s: System, id: nat, e: Event, s': System)
    requires ValidServer(s.server) && Step(s, id, e, s')
    requires e.BlobPosted? || e.TreePosted? || e.CommitPosted? || e.RefMoved?
    ensures s.heads <= s'.heads && s.log <= s'.log && s.calls.Keys <= s'.calls.Keys
  {
  }

  lemma StepGrows(s: System, id: nat, e: Event, s': System)
    requires ValidServer(s.server) && Step(s, id, e, s')
    ensures Grows(s.server, s'.server)
    ensures s.heads <= s'.heads && s.log <= s'.log
    ensures s.calls.Keys <= s'.calls.Keys
  {
    if e.BlobPosted? || e.TreePosted? || e.CommitPosted? || e.RefMoved? {
      PostGrows(s, id, e, s');
      PostExtends(s, id, e, s');
    } else {
      assert s' == s.(calls := s'.calls);
    }
  }

  // ---------------------------------------------------------------------------
  // The results, for every run
  // ---------------------------------------------------------------------------

  lemma {:induction false} Reachable(states: seq<System>, k: nat)
    requires Run(states) && k < |states|
    ensures Inv(states[k])
  {
    if k > 0 {
      Reachable(states, k - 1);
      assert Steps(states[k - 1], states[k - 1 + 1]);
      var id, e :| Step(states[k - 1], id, e, states[k]);
      StepKeeps(states[k - 1], id, e, states[k]);
    }
  }

  lemma {:induction false} RunGrows(states: seq<System>, i: nat, j: nat)
    requires Run(states) && i <= j < |states|
    ensures Grows(states[i].server, states[j].server)
    ensures states[i].heads <= states[j].heads && states[i].log <= states[j].log
    ensures states[i].calls.Keys <= states[j].calls.Keys
    decreases j
  {
    if i < j {
      RunGrows(states, i, j - 1);
      assert Steps(states[j - 1], states[j - 1 + 1]);
      var id, e :| Step(states[j - 1], id, e, states[j]);
      StepGrows(states[j - 1], id, e, states[j]);
    }
  }

  /** The serial execution: one change set after the other. */
  ghost function Replay(files: map<string, Bytes>, log: seq<Txn>): map<string, Bytes> {
    if log == [] then files
    else Replay(files, log[..|log| - 1]) + log[|log| - 1].changes
  }

  /** `t`'s mutation, run alone at `head` on `files`, returns exactly `t`'s changes. */
  ghost predicate SerialStep(files: map<string, Bytes>, head: Sha, t: Txn) {
    t.base == head && Runs(files, t.mutation(t.attempt, head, files.Keys), t.replies, Return(t.changes))
  }

  lemma {:induction false} ReplayReachesHead(s: Server, heads: seq<Sha>, log: seq<Txn>, k: nat)
    requires ValidServer(s) && HistoryInv(s, heads, log) && k <= |log|
    ensures FilesAt(s, heads[k]) == Replay(FilesAt(s, heads[0]), log[..k])
  {
    if k > 0 {
      ReplayReachesHead(s, heads, log, k - 1);
      assert TxnInv(s, log[k - 1], heads[k - 1], heads[k - 1 + 1]);
      ReplayNext(FilesAt(s, heads[0]), log, k - 1);
    }
  }

  lemma {:induction false} ReplayNext(files: map<string, Bytes>, log: seq<Txn>, k: nat)
    requires k < |log|
    ensures Replay(files, log[..k + 1]) == Replay(files, log[..k]) + log[k].changes
  {
    assert log[..k + 1][..k] == log[..k];
  }

  /** Serializability.  At any moment of any run, the files at each head the branch has had are the
      initial files with the accepted mutations applied one after another in head order, and each of
      those mutations, run alone on the serial state before it, returns exactly its change set. */
  lemma Serializable(states: seq<System>, now: nat)
    requires Run(states) && now < |states|
    ensures Inv(states[now])
    ensures var s, s0 := states[now], states[0].server;
            && ValidServer(s0) && s0.head in s0.commits
            && s.heads[0] == s0.head && s.heads[|s.log|] == s.server.head
            && (forall k | 0 <= k <= |s.log| ::
                  FilesAt(s.server, s.heads[k]) == Replay(FilesAt(s0, s0.head), s.log[..k]))
            && (forall k | 0 <= k < |s.log| ::
                  && SerialStep(Replay(FilesAt(s0, s0.head), s.log[..k]), s.heads[k], s.log[k])
                  && s.log[k].id in s.calls && s.log[k].mutation == s.calls[s.log[k].id].mutation)
  {
    Reachable(states, now);
    RunGrows(states, 0, now);
    var s, s0 := states[now], states[0].server;
    FilesFrame(s0, s.server, s0.commits[s0.head].tree);
    forall k | 0 <= k <= |s.log|
      ensures FilesAt(s.server, s.heads[k]) == Replay(FilesAt(s0, s0.head), s.log[..k])
    {
      ReplayReachesHead(s.server, s.heads, s.log, k);
    }
    forall k | 0 <= k < |s.log|
      ensures SerialStep(Replay(FilesAt(s0, s0.head), s.log[..k]), s.heads[k], s.log[k])
    {
      assert TxnInv(s.server, s.log[k], s.heads[k], s.heads[k + 1]);
    }
  }

  /** The serial order respects real time: a call that begins after some state was reached comes
      after every change accepted by then. */
  lemma RealTimeOrder(states: seq<System>, i: nat, j: nat, k: nat)
    requires Run(states) && i <= j < |states|
    requires k < |states[j].log| && states[j].log[k].id !in states[i].calls
    ensures k >= |states[i].log|
  {
    Reachable(states, i);
    RunGrows(states, i, j);
    assert forall l | 0 <= l < |states[i].log| :: states[j].log[l] == states[i].log[l];
  }

  lemma {:induction false} HeadsAreAncestors(s: Server, heads: seq<Sha>, log: seq<Txn>, a: nat, b: nat)
    requires ValidServer(s) && HistoryInv(s, heads, log) && a <= b < |heads|
    ensures IsAncestor(s.commits, heads[a], heads[b])
    decreases b
  {
    if a < b {
      HeadsAreAncestors(s, heads, log, a, b - 1);
      assert TxnInv(s, log[b - 1], heads[b - 1], heads[b - 1 + 1]);
      assert heads[b - 1] in s.commits[heads[b]].parents;
    }
  }

  /** The branch only grows, by commits whose sole parent is the head they replace, so every head
      there ever was stays in the branch's history. */
  lemma BranchOnlyGrows(states: seq<System>, i: nat, j: nat, a: nat)
    requires Run(states) && i <= j < |states| && a < |states[i].heads|
    ensures states[i].heads <= states[j].heads
    ensures IsAncestor(states[j].server.commits, states[i].heads[a], states[j].server.head)
    ensures a + 1 < |states[i].heads| ==>
              && states[i].heads[a + 1] in states[j].server.commits
              && states[j].server.commits[states[i].heads[a + 1]].parents == [states[i].heads[a]]
  {
    Reachable(states, j);
    RunGrows(states, i, j);
    var s := states[j];
    HeadsAreAncestors(s.server, s.heads, s.log, a, |s.log|);
    if a + 1 < |states[i].heads| {
      assert TxnInv(s.server, s.log[a], s.heads[a], s.heads[a + 1]);
    }
  }

  /** Whenever the server accepts a call's PATCH, the head is still the one that call's snapshot was
      taken at, and the call's commit becomes the head. */
  lemma AcceptedPatch(states: seq<System>, i: nat, id: nat, e: Event)
    requires Run(states) && i + 1 < |states| && e.RefMoved?
    requires ValidServer(states[i].server) && Step(states[i], id, e, states[i + 1])
    ensures var c := states[i].calls[id];
            && c.phase.PatchRef? && c.phase.snap.head == states[i].server.head
            && states[i + 1].server.head == c.phase.commit
            && states[i].server.commits[c.phase.commit].parents == [states[i].server.head]
  {
    Reachable(states, i);
    var s := states[i];
    PatchMeansHeadUnchanged(s.server, s.heads, s.log, s.calls[id]);
  }

  /** How often one call has moved the branch: never more than `maxRetries` times; and, counting the
      PATCHes that took effect but were reported to it as errors apart, exactly once if it returned
      the revision of a commit and not at all otherwise. */
  lemma CallAdvances(states: seq<System>, now: nat, id: nat)
    requires Run(states) && now < |states| && id in states[now].calls
    ensures var s, c := states[now], states[now].calls[id];
            && |s.heads| == |s.log| + 1
            && Advances(s.log, id) <= c.maxRetries
            && Advances(s.log, id) == c.lost + (if CommittedCall(c) then 1 else 0)
            && (c.phase.Done? ==>
                  match c.phase.outcome
                  case Committed(revision) =>
                    exists k :: c.since <= k < |s.log| && Made(s.log[k], id, revision) && s.heads[k + 1] == revision
                  case Unchanged(revision) => c.since < |s.heads| && revision in s.heads[c.since..]
                  case Rejected(_) => true)
  {
    Reachable(states, now);
    var s, c := states[now], states[now].calls[id];
    assert Ledger(c, id, s.log) && CallInv(s.server, s.heads, c);
    if CommittedCall(c) {
      var k :| c.since <= k < |s.log| && Made(s.log[k], id, c.phase.outcome.revision);
      assert TxnInv(s.server, s.log[k], s.heads[k], s.heads[k + 1]);
    }
  }

  /** The exception is real.  Whenever a call on its last attempt is about to PATCH a head that has not
      moved, the server may move the branch and the reply be lost: then the call is rejected although
      its change is in the branch for good.  (With attempts left it would start over on top of its own
      commit.)  So "a rejected call changed nothing" holds exactly when none of its replies was lost. */
  lemma LostReplyLeavesChange(s: System, id: nat) returns (s': System)
    requires Inv(s) && id in s.calls && s.calls[id].phase.PatchRef?
    requires s.calls[id].phase.snap.head == s.server.head
    requires s.calls[id].attempt + 1 == s.calls[id].maxRetries
    ensures PatchStep(s, id, s.calls[id], RefMoved(Some(Unavailable)), s') && Inv(s')
    ensures id in s'.calls && s'.calls[id].phase == Done(Rejected(Unavailable))
    ensures s'.server.head == s.calls[id].phase.commit != s.server.head
    ensures Advances(s'.log, id) == s'.calls[id].lost > 0
  {
    s' := LoseReply(s, id);
    PatchKeeps(s, id, RefMoved(Some(Unavailable)), s');
    LedgerOf(s'.calls, s'.log, id);
  }

  lemma LoseReply(s: System, id: nat) returns (s': System)
    requires Inv(s) && id in s.calls && s.calls[id].phase.PatchRef?
    requires s.calls[id].phase.snap.head == s.server.head
    requires s.calls[id].attempt + 1 == s.calls[id].maxRetries
    ensures PatchStep(s, id, s.calls[id], RefMoved(Some(Unavailable)), s')
    ensures id in s'.calls && s'.calls[id].phase == Done(Rejected(Unavailable)) && s'.calls[id].lost > 0
    ensures s'.server.head == s.calls[id].phase.commit != s.server.head
  {
    var c := s.calls[id];
    PatchIsEnabled(s.server, s.heads, s.log, c);
    s' := Patched(s, id, c, Some(Unavailable));
  }

  lemma LedgerOf(calls: map<nat, Call>, log: seq<Txn>, id: nat)
    requires LedgerInv(calls, log) && id in calls
    ensures Ledger(calls[id], id, log)
  {
  }

  lemma PatchIsEnabled(s: Server, heads: seq<Sha>, log: seq<Txn>, c: Call)
    requires ValidServer(s) && HistoryInv(s, heads, log) && CallInv(s, heads, c)
    requires c.phase.PatchRef? && c.phase.snap.head == s.head
    ensures IsAncestor(s.commits, s.head, c.phase.commit) && c.phase.commit != s.head
  {
    assert heads[|log|] == s.head;
    assert IsAncestor(s.commits, s.head, s.head);
    assert s.head in s.commits[c.phase.commit].parents;
  }
}
