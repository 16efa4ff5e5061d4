/** A run in which a call is rejected although its change is in the branch: the PATCH takes effect, and
    the caller is told of an error.  One client, one attempt, one file put into an empty repository. */
module GitLostReply {
  import opened Wrappers
  import opened GitTrees
  import opened GitTransactions
  import opened GitSerializability

  const BASE: Sha := 1
  const NEXT: Sha := 2
  const BLOB: Sha := 3

  /** The file that is to be put into the repository. */
  datatype File = File(path: string, content: Bytes)

  function Changes(f: File): map<string, Bytes> {
    map[f.path := f.content]
  }

  function Uploaded(f: File): map<string, Sha> {
    map[f.path := BLOB]
  }

  function Put(f: File): Mutation {
    (attempt: nat, head: Sha, paths: set<string>) => Return(Changes(f))
  }

  const SNAP: Snap := Snap(BASE, BASE, map[])

  function OldTrees(): Trees {
    map[BASE := []]
  }

  function NewTrees(f: File): Trees {
    map[BASE := [], NEXT := [Entry(f.path, Blob, BLOB)]]
  }

  function OldCommits(): map<Sha, Commit> {
    map[BASE := Commit(BASE, [])]
  }

  function NewCommits(): map<Sha, Commit> {
    map[BASE := Commit(BASE, []), NEXT := Commit(NEXT, [BASE])]
  }

  function Blobs(f: File): map<Sha, Bytes> {
    map[BLOB := f.content]
  }

  /** The call while it is at work, and the system around it. */
  function CallIn(f: File, phase: Phase): Call {
    Call(Put(f), 1, 0, phase, 0, [], 0)
  }

  function SystemIn(f: File, server: Server, phase: Phase): System {
    System(server, map[0 := CallIn(f, phase)], [BASE], [])
  }

  lemma CallReplaced(f: File, server: Server, phase: Phase, c: Call)
    ensures SystemIn(f, server, phase).calls[0 := c] == map[0 := c]
  {
  }

  lemma OldTreesAreValid()
    ensures ValidTrees(OldTrees()) && Listing(OldTrees(), BASE) == [] && Flat(OldTrees(), BASE) == map[]
  {
  }

  lemma NewTreesAreValid(f: File)
    requires ValidName(f.path)
    ensures ValidTrees(NewTrees(f)) && Listing(NewTrees(f), NEXT) == [Entry(f.path, Blob, BLOB)]
    ensures Flat(NewTrees(f), NEXT) == Uploaded(f)
  {
    var trees := NewTrees(f);
    var e := Entry(f.path, Blob, BLOB);
    var es := [e];
    assert trees[NEXT] == es && es[1..] == [];
    assert ListingOf(trees, NEXT, []) == [];
    assert ListingOf(trees, NEXT, es) == [e] + [] + [];
    assert es[..0] == [];
    assert BlobMap(es) == BlobMap([])[f.path := BLOB];
  }

  /** The repository before and after each request that changes it. */
  function Empty(): Server {
    Server(map[], OldTrees(), OldCommits(), BASE)
  }

  function WithBlob(f: File): Server {
    Empty().(blobs := Blobs(f))
  }

  function WithTree(f: File): Server {
    WithBlob(f).(trees := NewTrees(f))
  }

  function WithCommit(f: File): Server {
    WithTree(f).(commits := NewCommits())
  }

  lemma EmptyIsValid()
    ensures ValidServer(Empty())
  {
    OldTreesAreValid();
  }

  lemma WithBlobIsValid(f: File)
    ensures ValidServer(WithBlob(f))
  {
    OldTreesAreValid();
  }

  lemma WithTreeIsValid(f: File)
    requires ValidName(f.path)
    ensures ValidServer(WithTree(f))
  {
    NewTreesAreValid(f);
  }

  // ---------------------------------------------------------------------------
  // The steps
  // ---------------------------------------------------------------------------

  lemma Starts(f: File)
    requires ValidName(f.path)
    ensures var s := System(Empty(), map[], [BASE], []);
            Initial(s) && Steps(s, SystemIn(f, Empty(), GetRef))
  {
    EmptyIsValid();
    var s := System(Empty(), map[], [BASE], []);
    assert map[][0 := CallIn(f, GetRef)] == map[0 := CallIn(f, GetRef)];
    assert Step(s, 0, Begin(Put(f), 1), SystemIn(f, Empty(), GetRef));
  }

  lemma ReadsRef(f: File)
    requires ValidName(f.path)
    ensures Steps(SystemIn(f, Empty(), GetRef), SystemIn(f, Empty(), GetCommit(BASE)))
    ensures Steps(SystemIn(f, Empty(), GetCommit(BASE)), SystemIn(f, Empty(), GetListing(BASE, BASE)))
  {
    EmptyIsValid();
    CallReplaced(f, Empty(), GetRef, CallIn(f, GetCommit(BASE)));
    assert Step(SystemIn(f, Empty(), GetRef), 0, RefRead, SystemIn(f, Empty(), GetCommit(BASE)));
    CallReplaced(f, Empty(), GetCommit(BASE), CallIn(f, GetListing(BASE, BASE)));
    assert Step(SystemIn(f, Empty(), GetCommit(BASE)), 0, CommitRead, SystemIn(f, Empty(), GetListing(BASE, BASE)));
  }

  lemma ReadsListing(f: File)
    requires ValidName(f.path)
    ensures Steps(SystemIn(f, Empty(), GetListing(BASE, BASE)),
                  SystemIn(f, Empty(), Mutating(SNAP, Return(Changes(f)))))
  {
    EmptyIsValid();
    OldTreesAreValid();
    var c := CallIn(f, GetListing(BASE, BASE));
    assert Listed(c, OldTrees(), false) == CallIn(f, Mutating(SNAP, Return(Changes(f))));
    CallReplaced(f, Empty(), GetListing(BASE, BASE), CallIn(f, Mutating(SNAP, Return(Changes(f)))));
    assert Step(SystemIn(f, Empty(), GetListing(BASE, BASE)), 0, ListingRead(false),
                SystemIn(f, Empty(), Mutating(SNAP, Return(Changes(f)))));
  }

  lemma Thinks(f: File)
    requires ValidName(f.path)
    ensures Steps(SystemIn(f, Empty(), Mutating(SNAP, Return(Changes(f)))),
                  SystemIn(f, Empty(), Uploading(SNAP, Changes(f), map[])))
  {
    EmptyIsValid();
    var phase := Mutating(SNAP, Return(Changes(f)));
    assert f.path in Changes(f);
    CallReplaced(f, Empty(), phase, CallIn(f, Uploading(SNAP, Changes(f), map[])));
    assert Step(SystemIn(f, Empty(), phase), 0, Think, SystemIn(f, Empty(), Uploading(SNAP, Changes(f), map[])));
  }

  lemma PostsBlob(f: File)
    requires ValidName(f.path)
    ensures Steps(SystemIn(f, Empty(), Uploading(SNAP, Changes(f), map[])),
                  SystemIn(f, WithBlob(f), Uploading(SNAP, Changes(f), Uploaded(f))))
  {
    EmptyIsValid();
    var phase := Uploading(SNAP, Changes(f), map[]);
    var c' := CallIn(f, Uploading(SNAP, Changes(f), Uploaded(f)));
    var none: map<string, Sha>, blobs: map<Sha, Bytes> := map[], map[];
    assert none[f.path := BLOB] == Uploaded(f) && blobs[BLOB := f.content] == Blobs(f);
    CallReplaced(f, Empty(), phase, c');
    assert PostBlobStep(SystemIn(f, Empty(), phase), 0, CallIn(f, phase), BlobPosted(f.path, BLOB, None),
                        SystemIn(f, WithBlob(f), c'.phase));
    assert Step(SystemIn(f, Empty(), phase), 0, BlobPosted(f.path, BLOB, None), SystemIn(f, WithBlob(f), c'.phase));
  }

  lemma PostsTree(f: File)
    requires ValidName(f.path)
    ensures Steps(SystemIn(f, WithBlob(f), Uploading(SNAP, Changes(f), Uploaded(f))),
                  SystemIn(f, WithTree(f), PostCommit(SNAP, Changes(f), NEXT)))
  {
    WithBlobIsValid(f);
    WithTreeIsValid(f);
    OldTreesAreValid();
    NewTreesAreValid(f);
    var phase := Uploading(SNAP, Changes(f), Uploaded(f));
    var c' := CallIn(f, PostCommit(SNAP, Changes(f), NEXT));
    var none: map<string, Sha> := map[];
    assert none + Uploaded(f) == Uploaded(f) && Uploaded(f).Keys == Changes(f).Keys;
    assert Includes(OldTrees(), NewTrees(f));
    CallReplaced(f, WithBlob(f), phase, c');
    assert PostTreeStep(SystemIn(f, WithBlob(f), phase), 0, CallIn(f, phase), TreePosted(NewTrees(f), NEXT, None),
                        SystemIn(f, WithTree(f), c'.phase));
    assert Step(SystemIn(f, WithBlob(f), phase), 0, TreePosted(NewTrees(f), NEXT, None),
                SystemIn(f, WithTree(f), c'.phase));
  }

  lemma PostsCommit(f: File)
    requires ValidName(f.path)
    ensures Steps(SystemIn(f, WithTree(f), PostCommit(SNAP, Changes(f), NEXT)),
                  SystemIn(f, WithCommit(f), PatchRef(SNAP, Changes(f), NEXT)))
  {
    WithTreeIsValid(f);
    var phase := PostCommit(SNAP, Changes(f), NEXT);
    var c' := CallIn(f, PatchRef(SNAP, Changes(f), NEXT));
    assert OldCommits()[NEXT := Commit(NEXT, [BASE])] == NewCommits();
    CallReplaced(f, WithTree(f), phase, c');
    assert PostCommitStep(SystemIn(f, WithTree(f), phase), 0, CallIn(f, phase), CommitPosted(NEXT, None),
                          SystemIn(f, WithCommit(f), c'.phase));
    assert Step(SystemIn(f, WithTree(f), phase), 0, CommitPosted(NEXT, None), SystemIn(f, WithCommit(f), c'.phase));
  }

  /** The run up to the PATCH. */
  lemma RunToPatch(f: File) returns (states: seq<System>)
    requires ValidName(f.path)
    ensures Run(states) && |states| == 9
    ensures states[8] == SystemIn(f, WithCommit(f), PatchRef(SNAP, Changes(f), NEXT))
  {
    states := RunToUpload(f);
    PostsBlob(f);
    states := Extended(states, SystemIn(f, WithBlob(f), Uploading(SNAP, Changes(f), Uploaded(f))));
    PostsTree(f);
    states := Extended(states, SystemIn(f, WithTree(f), PostCommit(SNAP, Changes(f), NEXT)));
    PostsCommit(f);
    states := Extended(states, SystemIn(f, WithCommit(f), PatchRef(SNAP, Changes(f), NEXT)));
  }

  lemma RunToUpload(f: File) returns (states: seq<System>)
    requires ValidName(f.path)
    ensures Run(states) && |states| == 6 && states[5] == SystemIn(f, Empty(), Uploading(SNAP, Changes(f), map[]))
  {
    Starts(f);
    states := Extended([System(Empty(), map[], [BASE], [])], SystemIn(f, Empty(), GetRef));
    ReadsRef(f);
    states := Extended(states, SystemIn(f, Empty(), GetCommit(BASE)));
    states := Extended(states, SystemIn(f, Empty(), GetListing(BASE, BASE)));
    ReadsListing(f);
    states := Extended(states, SystemIn(f, Empty(), Mutating(SNAP, Return(Changes(f)))));
    Thinks(f);
    states := Extended(states, SystemIn(f, Empty(), Uploading(SNAP, Changes(f), map[])));
  }

  lemma Extended(states: seq<System>, s': System) returns (longer: seq<System>)
    requires Run(states) && Steps(states[|states| - 1], s')
    ensures Run(longer) && |longer| == |states| + 1 && longer[|states|] == s'
  {
    longer := states + [s'];
    forall i | 0 <= i < |longer| - 1 ensures Steps(longer[i], longer[i + 1]) {
      if i < |states| - 1 {
        assert Steps(states[i], states[i + 1]);
      }
    }
  }

  /** Whatever the file is, the run exists: its last state has the call rejected and its file in the branch. */
  lemma RejectedButCommitted(f: File) returns (states: seq<System>)
    requires ValidName(f.path)
    ensures Run(states) && |states| == 10
    ensures var s := states[9];
            && 0 in s.calls && s.calls[0].phase == Done(Rejected(Unavailable))
            && ValidServer(s.server) && s.server.head == NEXT && FilesAt(s.server, NEXT) == Changes(f)
  {
    states := RunToPatch(f);
    Reachable(states, 8);
    var s := states[8];
    var s' := LostReplyLeavesChange(s, 0);
    assert Step(s, 0, RefMoved(Some(Unavailable)), s');
    states := Extended(states, s');
    NewFiles(f, s'.server);
  }

  lemma NewFiles(f: File, s: Server)
    requires ValidName(f.path) && ValidServer(s) && s == WithCommit(f).(head := NEXT)
    ensures FilesAt(s, NEXT) == Changes(f)
  {
    NewTreesAreValid(f);
  }
}
