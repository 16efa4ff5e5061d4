# Verified models of peers-touch

Dafny models of the parts of peers-touch where correctness depends on interleaving, crashes or
recursion, with proofs for all inputs, all runs or all reachable states. `dafny verify dfyconfig.toml`
checks everything.

**Transactions on a Git branch** (`GitTrees`, `GitTransactions`, `GitSerializability`, `GitLostReply`). Any number of
clients change one branch through `UpdateRevision`. Every HTTP request is one step of a system, and
between two requests of one call any other call may step. Each call is at a phase of the code: reading
the ref, the commit, the recursive listing, a subtree of the queue-based walk, a blob its mutation asks
for, posting blobs, tree and commit, patching the ref. A request may be answered, fail without effect,
or take effect and be reported as an error. A mutation is any program that reads paths one by one and
then returns changes or an error, and it may behave differently on each attempt.

**The installation token** (`TokenCache`). The authenticator as an object, and the requests that share
it as a step system in which taking the lock, the token request and releasing the lock are separate
steps.

**The Station installer** (`Versions`, `Lexicographic`, `TextLines`, `Environment`, `AtomicFile`,
`InstallerWorld`, `Installer`, `InstallerRuns`). An `Installation` object acts step by step on a world made of
`state.json`, the `.env` files, the backups, the volumes and the containers of the installation's own
and the recovery compose project. A script, which may be any, says of every external step whether it raises, with or
without effect. `trace` holds the world after every step, so it lists all the moments at which the process can be
cut off, and each world holds the records that a power loss at that moment may leave. A history may go on after the
process is killed or the power is lost at any of its moments. The results are about every entry of every trace under
every script; `InstallerRuns` gives the scripts of particular runs.

**Acceptance tooling** (`Diagnostics`, `ClosureScalars`, `ClosureYaml`, `EvidenceMatrix`, `EvidenceExpansion`,
`Evidence`). Root-blocker resolution over a graph that may have cycles and the in-place loop around it, the
fallback YAML parser, and the check that evidence covers the expanded runtime matrix one to one.

`Sequences` and `Wrappers` hold definitions that several of these share.

## What is assumed

- The Git server: objects never change; trees are finite, have unique slash-free names other than `.` and `..`,
  and refer to objects that exist; ids are numbers in order of creation, so that commits and trees refer to older
  ones, and 0 is the empty string; a new commit gets a fresh id; a ref moved without force moves only to a
  descendant; a tree posted over a base tree has the base's path map overridden by the posted paths (no
  posted path is a directory of another path). Every change of the branch comes from `UpdateRevision`.
- The disk: a crash loses content that was not synced and may undo a rename that was not synced.
- Docker: containers of the two projects change only by the installer's commands; both stations bind the
  same host port, so at most one of them runs and `healthy` asks that one; Docker refuses to remove a
  volume that a container mounts; only a running station, directly or through its database, writes to
  volumes; names with a random part are not in use yet; after a power loss each container is as it was, stopped or gone.
- Option values, image names and paths hold no line-boundary character. `Environment.PreservedSurvives`
  says why this is needed.
- Tags are ASCII.

## Where a stronger claim fails

- A PATCH that took effect but was reported as an error is retried, so "a rejected call changed nothing"
  is false. `GitLostReply.RejectedButCommitted` is a whole run that shows it, and
  `GitSerializability.LostReplyLeavesChange` says that any call on its last attempt can meet it;
  `GitSerializability.CallAdvances` counts exactly.
- The check in `write_environment` excludes `\n` and `\r` but `splitlines` breaks lines at more
  characters, so a preserved line can be lost. `Environment.SeparatorBreaksLine` gives the lines;
  `Environment.PreservedSurvives` is the exact condition.
- "Every failed rollback leaves the original volumes recorded" fails for a restore if and only if its switching save
  replaced the file and raised, and the save of FAILED did not replace it (`Installer.LeftRecord`, proved by
  `Installer.Installation.RunRollback` and `DoRollback`). `InstallerRuns.FailedButSwitched` is a run, from an empty
  root on, that ends with a failed restore and its switched record.
- "An invocation that leaves HEALTHY recorded leaves the station running" fails if and only if
  `Installer.LeavesAdrift`: HEALTHY was recorded, the station was down already or `uninstall` or `rollback` took it
  down, and no save of the invocation replaced the record. For each operation that condition is spelled out in the
  outcomes of its steps, and `Installer.Installation.Execute` proves it in both directions from every start. Three runs
  from an empty root show it: `InstallerRuns.HealthyButDown` (the first command of `uninstall` raises after it took
  effect), `RemovedButHealthy` (its commands go well and its save fails) and `StoppedButHealthy` (a restore stops the
  station, and neither its first save nor the save of FAILED succeeds).
- "A restore leaves what the original volumes held when the station was stopped" holds for every continuation if and
  only if before it no running station of a recovery project can write to them (`Installer.Calm`). A rollback in place
  whose trial fails leaves such a station running, and `rollback` stops only the installation's own. If the condition
  holds the content stays at every moment (`Installer.Installation.RunRollback`); if not, the volume holds whatever that
  station writes while the beginning is recorded (`Installer.RestoreIsWrittenTo`), and that may be anything
  (`Installer.StaysWhateverIsWritten`). `InstallerRuns.WrittenDuringRestore` is a run from an empty root.
- The fallback YAML reader does not read a list item whose first key stands beside the dash as a mapping, although the
  repository's closure contract is written so. An item is a mapping if and only if nothing stands after its dash
  (`ClosureYaml.ItemIsMapping`); `ClosureYaml.ContractItemIsString` is the contract's own item.
- A list is read back if and only if its first item stands right below its key (`ClosureYaml.ListIsReadBack`). If a
  comment or a blank line comes between, it is read as an empty mapping: `ClosureYaml.CommentHidesList`.

Not claimed: that the root `.env` names the recorded volumes (`InstallerRuns.FailedButRebound` is a run after which it
does not), that a failed rollback brings the recovery project down (`InstallerRuns.LeaveTrial` shows one that does not),
and that operations other than `rollback` keep two running databases off one volume.

## Model

| member | source | states |
|---|---|---|
| GitTrees.BlobEntries | packages/github-repository/git_data.go:313-321 | the loop yields the path-to-blob map of the listing, a later entry winning |
| GitTrees.ListingIsDistinct | packages/github-repository/git_data.go:244-299 | no path occurs twice in the recursive listing of a tree |
| GitTrees.SameEntriesSameMap | packages/github-repository/git_data.go:285-321 | the same entries in another order give the same map |
| GitTrees.VisitEntries | packages/github-repository/git_data.go:278-296 | the loop over one tree's entries: records blobs, queues subtrees, refuses empty fields and excess depth |
| GitTrees.WalkContinues | packages/github-repository/git_data.go:264-297 | one turn of the walk keeps that what was seen plus what is owed is the whole listing, or the tree is over a bound |
| GitTrees.WalkEnds | packages/github-repository/git_data.go:298-298 | an exhausted walk holds the map of the recursive listing and has counted exactly its entries |
| GitTrees.VisitQueues | packages/github-repository/git_data.go:274-297 | every queued tree was paid for by a counted entry |
| GitTrees.WalkTree | packages/github-repository/git_data.go:256-298 | the walk ends within MAX_ENTRIES + 1 requests against any server; against an honest one it yields the listing's map if and only if the tree is within both bounds |
| GitTrees.LoadTreeEntries | packages/github-repository/git_data.go:244-299 | whatever the server answers the walk ends within MAX_ENTRIES + 1 requests of its loop; an honest server yields the listing's map, and both forms reject on the same size bound |
| GitTransactions.FlatInBlobs | packages/github-repository/git_data.go:135-155 | every path of a snapshot names a blob the server holds |
| GitSerializability.CallUpdated | packages/github-repository/git_data.go:94-133 | a step that leaves the branch alone keeps the invariant of all calls |
| GitSerializability.ErrorKeeps | packages/github-repository/git_data.go:100-132 | an error in any phase leaves the call without a commit of its own and without a result it did not earn |
| GitSerializability.ReadKeeps | packages/github-repository/git_data.go:172-299 | the snapshot a call builds over several requests is the file map of one head the branch had during the call |
| GitSerializability.PostTreeKeeps | packages/github-repository/git_data.go:341-370 | the posted tree holds the snapshot's files overridden by the changes |
| GitSerializability.PostCommitKeeps | packages/github-repository/git_data.go:371-383 | the posted commit's only parent is the snapshot's head, and no other call has this commit |
| GitSerializability.PatchMeansHeadUnchanged | packages/github-repository/git_data.go:384-391 | the server accepts a non-forced PATCH only while the head is the one the call started from |
| GitSerializability.PatchKeeps | packages/github-repository/git_data.go:384-391 | an accepted PATCH keeps the invariant: history, ledger, commits of their own, and every other call |
| GitSerializability.StepKeeps | packages/github-repository/git_data.go:94-133 | every step of every call keeps the invariant |
| GitSerializability.Serializable | packages/github-repository/git_data.go:94-229 | in every run the files at each head are the accepted mutations applied one after another in head order, each returning its changes when run alone on exactly that serial state |
| GitSerializability.RealTimeOrder | packages/github-repository/git_data.go:94-133 | the serial order respects real time |
| GitSerializability.BranchOnlyGrows | packages/github-repository/git_data.go:371-391 | every head ever installed stays an ancestor of the head, and each head's sole parent is the one before it |
| GitSerializability.AcceptedPatch | packages/github-repository/git_data.go:384-391 | when a PATCH takes effect the head still equals the call's snapshot, and becomes its commit |
| GitSerializability.CallAdvances | packages/github-repository/git_data.go:94-133 | a call advances the branch at most maxRetries times: once per PATCH reported to it as an error, plus once if it returns a commit; that commit was installed during the call, and an empty mutation returns a head read during it |
| GitSerializability.LostReplyLeavesChange | packages/github-repository/git_data.go:118-132 | on its last attempt a call can be rejected although its change is in the branch |
| GitLostReply.RejectedButCommitted | packages/github-repository/git_data.go:94-133 | a run, from an empty repository and for any file, that ends with the call rejected and its file in the branch |
| TokenCache.AppAuthenticator.InstallationToken | packages/github-repository/app_auth.go:57-101 | a cached token is served only with more than a minute left; otherwise the reply decides, and a refusal leaves the cache as it was |
| TokenCache.AppAuthenticator.Invalidate | packages/github-repository/app_auth.go:103-108 | afterwards no token is served from the cache at any time |
| TokenCache.AppAuthenticator.Request | packages/github-repository/git_data.go:404-463 | at most two sends, a second only after a 401 and with the token minted after the cache was emptied |
| TokenCache.StepKeeps | packages/github-repository/app_auth.go:57-108 | every step of every request keeps the invariant of cache, lock and callers |
| TokenCache.RequestsAreBounded | packages/github-repository/git_data.go:404-463 | in every interleaving: at most two sends, the second with a token asked for after that request's own invalidation; what the cache serves has more than a minute left; one request at a time inside the lock |
| Versions.GroupsMeaning | tooling/distribution/installer.py:40-41 | the pattern match finds exactly the tags whose text it is, and only one reading |
| Versions.VersionKey | tooling/distribution/installer.py:39-47 | accepts exactly the texts of valid tags and returns the tag's key |
| Versions.KeyIsInjective | tooling/distribution/installer.py:39-47 | different tags have different keys |
| Versions.KeyOrder | tooling/distribution/installer.py:39-47 | the tuple order is a strict total order |
| Versions.OrderIsPrecedence | tooling/distribution/installer.py:39-47 | the tuple order is precedence as section 11 of Semantic Versioning 2.0.0 defines it, clause by clause |
| Versions.MajorAsText | tooling/distribution/installer.py:311-311 | the textual comparison of major versions agrees with the numeric one |
| TextLines.LinesRoundTrip | tooling/distribution/installer.py:122-152 | lines written with newlines are read back by splitlines if and only if none holds a line boundary |
| Environment.PreserveLines | tooling/distribution/installer.py:122-124 | selects exactly the non-empty, non-managed lines, in order |
| Environment.PreservedSurvives | tooling/distribution/installer.py:122-152 | rewriting the file keeps the preserved lines if and only if none of them holds a line boundary |
| Environment.SeparatorBreaksLine | tooling/distribution/installer.py:145-148 | lines that pass the check before writing and are not read back |
| Environment.WrittenPreserves | tooling/distribution/installer.py:119-163 | what is written is preserved by every later rewriting, whatever that manages |
| AtomicFile.Stage | tooling/distribution/installation_state.py:18-23 | until the rename nobody sees anything new, running or after a crash |
| AtomicFile.SyncDirectory | tooling/distribution/installation_state.py:25-29 | once the directory is synced the new value survives any crash |
| AtomicFile.AtomicWrite | tooling/distribution/installation_state.py:16-32 | at every crash point the old or the new value, whole, and never the old again; exactly which errors leave which value, in the file and after a power loss; a temporary file stays only if unlinking it failed |
| InstallerWorld.TraceExtends | tooling/distribution/installer.py:82-85 | a step that keeps the step invariant extends a good history |
| InstallerWorld.CredentialsNeverRotate | tooling/distribution/installer.py:119-163 | from the first `.env` on, every later one and every backup and recovery copy holds the same preserved lines |
| InstallerWorld.StoredEnvReadsBack | tooling/distribution/installer.py:266-268 | reading a stored copy back as text finds those lines again |
| InstallerWorld.VersionsIncrease | tooling/distribution/installer.py:307-327 | over any stretch of any history in which no release is changed by a rollback or a fresh install and no power loss sets the record back, the recorded versions only increase, within one major version |
| InstallerWorld.ReleaseChanges | tooling/distribution/installer.py:217-413 | whenever the recorded release changes other than by a power loss, the installation was purged and no upgrade is on record, or the new release is the one on record as attempted and a later version of the same major, or the one on record as previous |
| InstallerWorld.PowerLossLeavesRecord | tooling/distribution/installation_state.py:16-32 | in every history, power losses included, a power loss leaves a record that the file held at some moment before |
| Installer.OnlyContainers | tooling/distribution/installer.py:95-98 | a compose command keeps what every step keeps |
| Installer.SafeStep | tooling/distribution/installer.py:365-413 | one more step of a rollback keeps its whole history safe |
| Installer.KeptIsSafe | tooling/distribution/installer.py:365-402 | a step that adds no second running database on a volume, no station that can write to the original volumes and no record but those of a rollback is safe, from any start of which that is true |
| Installer.StaysWhateverIsWritten | tooling/distribution/installer.py:365-369 | a volume keeps its content, whatever running stations write, if and only if none of them can write to it |
| Installer.RestoreIsWrittenTo | tooling/distribution/installer.py:365-370 | to an original volume that a recovery station can write to before a restore, it writes what it likes after the installation's own station was stopped; to the others nothing is written |
| Installer.MayUpgrade | tooling/distribution/installer.py:310-312 | the two version checks pass if and only if the release is a later version of the same major |
| Installer.Installation.Save | tooling/distribution/installer.py:82-85 | memory first, then the file, which may fail on either side of the replacement or between it and the sync, with what `atomic_json` then leaves; HEALTHY only over the recorded build |
| Installer.SaveIsAtomicWrite | tooling/distribution/installation_state.py:16-32 | every outcome of a save, replaced or not and raised or not, is that of system calls of `atomic_json` that fail |
| Installer.AtomicWriteIsSave | tooling/distribution/installation_state.py:16-32 | whichever system calls of `atomic_json` fail, a save has that outcome |
| Installer.Installation.WriteEnvironment | tooling/distribution/installer.py:119-163 | the new `.env` names the given image and volumes and the same preserved lines, or nothing changes |
| Installer.Installation.CheckHealth | tooling/distribution/installer.py:165-181 | success means that a running station reports the release's build |
| Installer.Installation.MoveTo | tooling/distribution/installer.py:95-98 | containers of one project change and nothing else does |
| Installer.Installation.Launch | tooling/distribution/installer.py:249-254 | success means that the installation's own station runs the release on the rewritten `.env`; six steps that go well suffice |
| Installer.Installation.ResumeCurrent | tooling/distribution/installer.py:87-93 | ends in HEALTHY with the recorded build running, or in FAILED |
| Installer.Installation.StartStopped | tooling/distribution/installer.py:223-228 | a stopped installation comes back HEALTHY on its recorded build |
| Installer.Installation.FreshInstall | tooling/distribution/installer.py:246-254 | success records HEALTHY with the release running; failure changes only the phase |
| Installer.Installation.DoInstall | tooling/distribution/installer.py:217-254 | success means the asset's release is recorded HEALTHY and running; on an installation that was not purged only the phase changes; on an empty root ten steps that go well install it, with the generated lines and both volumes |
| Installer.Installation.CopyOut | tooling/distribution/installer.py:261-276 | a recorded backup is sealed and holds the recorded release |
| Installer.Installation.DoBackup | tooling/distribution/installer.py:256-284 | success leaves exactly the recorded state plus the backup, HEALTHY and running if resumed; failure never leaves a changing phase; it succeeds when its steps go well |
| Installer.Installation.SwitchTo | tooling/distribution/installer.py:319-327 | success records the new release HEALTHY and running, with the old one as previous |
| Installer.Installation.DoUpgrade | tooling/distribution/installer.py:307-327 | success is a strict increase within one major version, from a HEALTHY installation; a later version of the same major and seventeen steps that go well suffice, and leave the lines, the volumes and a backup of the release before |
| Installer.Installation.DoUninstall | tooling/distribution/installer.py:415-426 | success leaves no container and only the phase changed; it leaves HEALTHY recorded without the station if and only if the station was down or its first command took it away, and that command raised, a volume could not be removed, or the save did not replace the record |
| Installer.Installation.RollbackTarget | tooling/distribution/installer.py:329-364 | goes back if and only if to `previous`, from a backup of exactly that release, confirmed or proved compatible |
| Installer.Installation.Quiesce | tooling/distribution/installer.py:365-369 | what must not run beside the recovery project is stopped before anything is recorded; HEALTHY is left recorded without the station if and only if the stop took effect and then a stop raised or the save did not replace the record |
| Installer.Installation.PrepareVolumes | tooling/distribution/installer.py:371-376 | creating and filling the new volumes leaves the original ones alone |
| Installer.Installation.TryRecovery | tooling/distribution/installer.py:383-394 | the trial runs on the planned volumes, and success leaves no recovery container |
| Installer.Installation.CommitRecovery | tooling/distribution/installer.py:399-406 | one save switches phase, release and volumes together, over the old release running; failure means that this save raised or was not reached |
| Installer.Installation.SaveSwitch | tooling/distribution/installer.py:405-406 | the switching save: whether it raised and whether it replaced the file are independent, and decide success and what is recorded |
| Installer.Installation.RecordFailure | tooling/distribution/installer.py:407-411 | FAILED on the original volumes is recorded if and only if this save replaced the file |
| Installer.FinallyLeaves | tooling/distribution/installer.py:407-411 | after any failed attempt the record is the switching one if and only if the switching save replaced the file and raised and the save of FAILED did not replace it, and otherwise names the original volumes |
| Installer.Installation.RunRollback | tooling/distribution/installer.py:365-413 | at every moment `state.json` names the original volumes until the one switching save, and a power loss leaves such a record or one that it could have left before, the latter no more once the beginning is recorded; if before it no volume was mounted by two running databases, none ever is; if before it no recovery station could write to the original volumes, a restore leaves their content; a failure leaves the original volumes recorded, except exactly when the switching save replaced the file and raised and the save of FAILED did not replace it |
| Installer.Installation.DoRollback | tooling/distribution/installer.py:329-413 | the same, with the same two premises, for the whole operation, restoring or in place; it sets out if and only if its checks pass; a rollback whose steps go well up to the switching save succeeds if and only if that save does not raise; HEALTHY is left recorded without the station exactly as its beginning decides |
| Installer.Installation.Execute | tooling/distribution/installer.py:429-459 | an invocation that returns normally in HEALTHY has the recorded build running, whichever operation it was; any invocation leaves HEALTHY recorded without its station if and only if it was so or `uninstall` or `rollback` took the station down, and none of its saves, that of the handler included, replaced the record |
| Installer.Installation.CutOff | tooling/distribution/installer.py:429-459 | what is left of a run whose process ends at any moment is again a valid start |
| Installer.Installation.LosePower | tooling/distribution/installer.py:429-459 | so is what is left when the power is lost, with any of the records and containers that may then be found |
| Installer.Installation.HandleFailure | tooling/distribution/installer.py:454-458 | a changing phase in memory becomes FAILED, and otherwise nothing changes |
| Installer.Installation.Lifecycle | tooling/distribution/installer.py:217-459 | any sequence of operations, each killed or losing its power anywhere, is a good history: the release changes only by fresh install, by the recorded upgrade to a later version, back to the recorded previous one or by a power loss that sets the record back, HEALTHY is written only over the recorded build, credentials stay, and a power loss finds only records that were written |
| InstallerRuns.Prepare | tooling/distribution/installer.py:217-327 | from an empty root, an installation and an upgrade whose steps go well leave the second release up, its volumes, lines and one backup |
| InstallerRuns.Restore | tooling/distribution/installer.py:329-413 | a restore that goes well up to its switching save, which raises, fails with `.env` on the new volumes; the record is switched or original as the two saves decide |
| InstallerRuns.FailedButSwitched | tooling/distribution/installer.py:405-411 | a run from an empty root whose restore fails and leaves the switched record |
| InstallerRuns.FailedButRebound | tooling/distribution/installer.py:401-411 | a run whose restore fails with the original volumes recorded and the new ones in `.env` |
| InstallerRuns.HealthyButDown | tooling/distribution/installer.py:415-426 | a run that ends with HEALTHY recorded and no container running, since the first command of `uninstall` raised |
| InstallerRuns.RemovedButHealthy | tooling/distribution/installer.py:415-426 | a run that ends so although that command did not raise: the save did |
| InstallerRuns.StoppedButHealthy | tooling/distribution/installer.py:365-369 | a run that ends with HEALTHY recorded over a station that `rollback` stopped |
| InstallerRuns.LeaveTrial | tooling/distribution/installer.py:382-413 | a rollback in place whose readback raises leaves its trial running on the installation's own volumes, with FAILED recorded |
| InstallerRuns.WrittenDuringRestore | tooling/distribution/installer.py:365-413 | a run from an empty root in which a restore follows and the installation's data changes after its station was stopped |
| InstallerRuns.StoryExists | tooling/distribution/installer.py:217-413 | releases, lines and names as these runs ask for exist |
| Diagnostics.ChainsFollowEdges | tooling/scripts/acceptance-report.py:211-227 | every reported chain is a walk along required gates from the gate asked about |
| Diagnostics.LeafRootsAreReachableLeaves | tooling/scripts/acceptance-report.py:211-227 | the roots without a gap are exactly the reachable gates that require nothing |
| Diagnostics.GapMeansDefect | tooling/scripts/acceptance-report.py:211-227 | a gap appears if and only if a cycle or a gate outside the incomplete ones is reachable |
| Diagnostics.ReadsAgree | tooling/scripts/acceptance-report.py:229-241 | reading nodes that the loop has already rewritten gives the same fields as reading the original ones |
| Diagnostics.CompleteNode | tooling/scripts/acceptance-report.py:230-240 | one turn yields the fields the original nodes call for, however many nodes are rewritten already |
| Diagnostics.CompleteNodes | tooling/scripts/acceptance-report.py:229-241 | the loop, in any order, yields the report the original nodes call for |
| Diagnostics.DiagnosticProjection | tooling/scripts/acceptance-report.py:201-253 | refuses exactly duplicate results, and otherwise returns that report |
| Diagnostics.NoDefectBelow | tooling/scripts/acceptance-report.py:211-227 | no gate has a gap if and only if the graph is closed and acyclic |
| Diagnostics.CompleteMeansExplained | tooling/scripts/acceptance-report.py:242-249 | COMPLETE if and only if there are results, no incomplete gate lacks a field of its own, and the incomplete gates are closed and acyclic |
| Diagnostics.OrderDoesNotMatter | tooling/scripts/acceptance-report.py:229-253 | the order of the results does not change the report |
| ClosureScalars.IntShapeReads | tooling/scripts/acceptance-closure-gen.py:161-164 | `int` takes exactly a sign and digits with single underscores between them |
| ClosureScalars.FloatShapeReads | tooling/scripts/acceptance-closure-gen.py:165-168 | `float` takes exactly the decimal forms, with exponent, and the words for infinity and not-a-number |
| ClosureScalars.BareReads | tooling/scripts/acceptance-closure-gen.py:150-169 | a text without quotes is read as that string if and only if it is none of the reserved words, not quoted and not of the shape of a number |
| ClosureScalars.QuotedReads | tooling/scripts/acceptance-closure-gen.py:150-169 | any string in quotes of either kind is read as that string |
| ClosureScalars.ScalarReads | tooling/scripts/acceptance-closure-gen.py:150-169 | the text of a scalar, in any of its styles, is read as that scalar |
| ClosureYaml.EntriesLayout | tooling/scripts/acceptance-closure-gen.py:60-83 | every laid-out line, in any style of scalar and with comments and blank lines between, is taken for what it was written as |
| ClosureYaml.ParseYamlBlock | tooling/scripts/acceptance-closure-gen.py:57-112 | ends on every input, within the lines, with the value of the recursive form |
| ClosureYaml.CollectFolded | tooling/scripts/acceptance-closure-gen.py:85-100 | takes the texts of all lines up to the first that is neither ignored nor deeper, and stops there |
| ClosureYaml.FoldedRoundTrip | tooling/scripts/acceptance-closure-gen.py:85-100 | the lines of a block scalar, with ignored lines among them, are collected in order, and exactly they |
| ClosureYaml.ParseYamlValue | tooling/scripts/acceptance-closure-gen.py:115-147 | ends on every input, within the lines, with the value of the recursive form |
| ClosureYaml.BlockRoundTrip | tooling/scripts/acceptance-closure-gen.py:57-112 | wherever a mapping is laid out, the block parser returns it and consumes exactly its lines and the ignored ones after |
| ClosureYaml.NodeRoundTrip | tooling/scripts/acceptance-closure-gen.py:115-147 | the same for a nested mapping or list below its key |
| ClosureYaml.ItemsRoundTrip | tooling/scripts/acceptance-closure-gen.py:122-145 | the same for the items of a list |
| ClosureYaml.DocumentRoundTrip | tooling/scripts/acceptance-closure-gen.py:45-147 | reading the lines of any document, with scalars of every style, block scalars, comments and blank lines, returns it and consumes all of them |
| ClosureYaml.TextRoundTrip | tooling/scripts/acceptance-closure-gen.py:45-54 | so does reading its text when no line of it holds a line boundary |
| ClosureYaml.MinimalYamlParse | tooling/scripts/acceptance-closure-gen.py:45-54 | the entry point returns the document that a text lays out, whichever it is |
| ClosureYaml.ItemIsMapping | tooling/scripts/acceptance-closure-gen.py:136-144 | a list item is read as a mapping if and only if nothing stands after its dash; otherwise as the scalar that stands there |
| ClosureYaml.CompactItemIsString | tooling/scripts/acceptance-closure-gen.py:136-144 | an item with its first key beside the dash is read as one string, and the list ends there |
| ClosureYaml.ContractItemIsString | tooling/acceptance/closures/messaging-w11.yaml:14-15 | so is the contract's own first deliverable |
| ClosureYaml.CommentHidesList | tooling/scripts/acceptance-closure-gen.py:115-147 | with an ignored line between its key and its first item a list is read as an empty mapping |
| ClosureYaml.ListIsReadBack | tooling/scripts/acceptance-closure-gen.py:115-147 | a list below its key is read back if and only if its first item stands right there |
| EvidenceMatrix.LastRuleWins | tooling/scripts/acceptance-validate.py:1303-1312 | of several rules for a cell the last one that sets a field decides it, field by field |
| EvidenceMatrix.RowKeysAreProduct | tooling/scripts/acceptance-validate.py:1294-1376 | a row makes exactly the tuples of its product of cells, locales, filtered orderings and samples |
| EvidenceMatrix.RowKeysDistinct | tooling/scripts/acceptance-validate.py:1352-1372 | a row makes no tuple twice if and only if no list of one of its cells repeats a value |
| EvidenceMatrix.AllKeysDistinct | tooling/scripts/acceptance-validate.py:1369-1372 | the duplicate check passes if and only if no list repeats a value and any two rows have disjoint products |
| EvidenceExpansion.CellRule | tooling/scripts/acceptance-validate.py:1303-1312 | the loop over the rules merges those for the cell, later over earlier |
| EvidenceExpansion.AddSamples | tooling/scripts/acceptance-validate.py:1354-1376 | the innermost loop adds every tuple to its gate, its roles and the profiles, or refuses exactly a repeated one |
| EvidenceExpansion.AddCell | tooling/scripts/acceptance-validate.py:1352-1376 | so do the three nested loops of a cell |
| EvidenceExpansion.ExpandRow | tooling/scripts/acceptance-validate.py:1248-1376 | a row is expanded if and only if its policy, profile, cells, filters and sample sets are in order and nothing repeats |
| EvidenceExpansion.ExpandRows | tooling/scripts/acceptance-validate.py:1248-1376 | so are all rows |
| EvidenceExpansion.CountTuples | tooling/scripts/acceptance-validate.py:1377-1381 | the sum over the gates counts every tuple once |
| EvidenceExpansion.GateCompleteMeans | tooling/scripts/acceptance-validate.py:1382-1401 | the checks on a gate's sets say that its count is right, every role applies somewhere, and the always-full roles apply everywhere |
| EvidenceExpansion.ExpandedMatrixContract | tooling/scripts/acceptance-validate.py:1227-1402 | accepts if and only if the matrix is in order, and returns for every gate and role exactly the product tuples of its rows, with their profiles |
| EvidenceExpansion.RoleWithinGate | tooling/scripts/acceptance-validate.py:1373-1376 | a role's tuples are among its gate's, so looking up their attestations cannot fail |
| Evidence.ValidateAttestations | tooling/scripts/acceptance-validate.py:1624-1669 | accepts if and only if the profiles match, the keys are distinct and the expected ones, and outside the foundation gate no scenario execution or primary execution is shared |
| Evidence.NoteExecution | tooling/scripts/acceptance-validate.py:1647-1664 | one tuple's executions are new, or the whole list is refused |
| Evidence.ExecutionsDiffer | tooling/scripts/acceptance-validate.py:1186-1213 | no two accepted attestations speak of one turn, tool call, command, readiness snapshot or contract run, across the profiles that identify an execution by it |
| Evidence.AllObserved | tooling/scripts/acceptance-validate.py:519-522 | the final comparison of observed and applicable tuples cannot fail: it follows from the count and the checks on each observation |
| Evidence.ValidateGateEvidence | tooling/scripts/acceptance-validate.py:337-547 | accepts if and only if references, counts, scenario ids and oracle are right and every observation is bound to the attestation of a different applicable tuple |
| Evidence.ValidateCandidate | tooling/scripts/acceptance-validate.py:1519-1730 | acceptance is exactly: the matrix is in order and its expansion evidenced; and then the evidence covers the matrix one to one |
| Evidence.ExpansionIsUnique | tooling/scripts/acceptance-validate.py:1227-1402 | the matrix determines its expansion |
| Evidence.AcceptedMeansCovered | tooling/scripts/acceptance-validate.py:1578-1722 | attestations are in bijection with the gate's product tuples, every role's observations with its applicable tuples, and outside the foundation gate no two observations of a role share a scenario execution |

## Left out

- HTTP, JSON, base64, RSA and JWT of the GitHub client: a request is a step with a nondeterministic outcome.
- `UpdateRevision`, `Snapshot` and `commit` are phases of a step system rather than methods, because other calls act between their requests; sorting the paths before uploading is not modelled, since blobs are posted in any order.
- `SnapshotAtCommit`, `Paths`, `View` and the client's configuration: they would only add easy members.
- Docker, psql, tar and schema commands: each is one step that succeeds or fails; what a dump or archive holds, and hence that restored data equals the backup, is not modelled.
- Parts of `installer.py` before and after an operation: option parsing, ownership labels, asset checks, the compatibility proof's fields and the final report; they enter as verdicts.
- `instance_lock`: one invocation runs at a time is taken for granted.
- Installer.Installation.LosePower: a power loss is treated for `state.json` and the containers; `.env`, backups and volumes are taken to be there afterwards as they were.
- Python specifics: non-ASCII digits, the limit on the number of digits in `int`, and the values of floats (which strings are floats is modelled).
- Diagnostics.DiagnosticProjection: missing fields are sets; sorting them for presentation, and what makes a gate's own diagnostic incomplete, are not modelled.
- ClosureScalars.ScalarReads: floats are not among the scalars of a document, and keys are plain; both as in the contracts the parser is for.
- Evidence.ValidateGateEvidence: field presence, hash formats, the optional bindings to tool call, receipt, turn, readiness snapshot and provider, and the success checks of each role enter as one verdict per observation, and the checks on the artifact alone as one verdict per artifact.
- Evidence.ValidateAttestations: the payload checks of each profile enter as one verdict per tuple.
- EvidenceMatrix.RowKeysAreProduct: tuple keys are records of eight strings instead of their JSON text, which determines them.
- `compile_graph`, the evidence store, plan, coverage and proof scripts, applets and user interfaces: not part of this model.
