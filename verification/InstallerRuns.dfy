/** Runs of the installer, from an empty root on, that end where one might not expect it. */
module InstallerRuns {
  import opened Wrappers
  import opened TextLines
  import opened Versions
  import opened InstallerWorld
  import Environment
  import opened Installer

  /** A first installation of `first`, its upgrade to `second`, and new volumes for a restore. */
  datatype Story = Story(
    root: string, project: string, first: Release, second: Release, generated: seq<string>, volumes: Volumes)

  function OwnVolumes(s: Story): Volumes {
    Volumes(s.project + "-pg", s.project + "-data")
  }

  ghost predicate ValidStory(s: Story) {
    && OneLine(s.root) && OneLine(s.project) && ValidRelease(s.first) && ValidRelease(s.second)
    && Upgrades(s.first, s.second) && GeneratedLines(Some(s.generated)) && ValidVolumes(s.volumes)
    && Acceptable(s.generated, s.first, OwnVolumes(s), s.root)
    && Acceptable(s.generated, s.second, OwnVolumes(s), s.root)
    && Acceptable(s.generated, s.first, s.volumes, s.root)
    && {s.volumes.pg, s.volumes.data} !! {OwnVolumes(s).pg, OwnVolumes(s).data}
  }

  /** There are such stories: this one is about 1.0.0 and 1.1.0. */
  lemma StoryExists() returns (s: Story)
    ensures ValidStory(s)
  {
    var zero, one, line := "0", "1", "KEY=value";
    var first := Release(Tag(one, zero, zero, []), "a", "i");
    var second := Release(Tag(one, one, zero, []), "b", "j");
    s := Story("r", "p", first, second, [line], Volumes("x", "y"));
    Numbers(zero, one);
    assert Upgrades(first, second) by {
      CoreMeaning(KeyOf(first.tag), KeyOf(second.tag));
    }
    PlainLine(line);
    PlainVolumes(s);
  }

  lemma Numbers(zero: string, one: string)
    requires zero == "0" && one == "1"
    ensures Numeral(zero) && Numeral(one) && Value(zero) == 0 && Value(one) == 1
  {
    assert zero[..0] == "" && one[..0] == "";
  }

  lemma PlainLine(line: string)
    requires line == "KEY=value"
    ensures Environment.Kept(line) && OneLine(line) && Environment.Quotable(line)
  {
    Environment.KeyBefore("KEY", "value");
    assert line == "KEY" + "=" + "value";
  }

  lemma PrefixQuotable(prefix: string, value: string)
    requires || prefix == "PEERS_STATION_IMAGE=" || prefix == "PEERS_PG_VOLUME=" || prefix == "PEERS_DATA_VOLUME="
             || prefix == "PEERS_INSTALL_ROOT="
    requires Environment.Quotable(value)
    ensures Environment.Quotable(prefix + value)
  {
  }

  lemma PlainParts(kept: seq<string>, release: Release, volumes: Volumes, root: string)
    requires forall line | line in kept :: Environment.Quotable(line)
    requires Environment.Quotable(release.image) && Environment.Quotable(root)
    requires Environment.Quotable(volumes.pg) && Environment.Quotable(volumes.data)
    ensures Acceptable(kept, release, volumes, root)
  {
    PrefixQuotable("PEERS_STATION_IMAGE=", release.image);
    PrefixQuotable("PEERS_PG_VOLUME=", volumes.pg);
    PrefixQuotable("PEERS_DATA_VOLUME=", volumes.data);
    PrefixQuotable("PEERS_INSTALL_ROOT=", root);
  }

  lemma PlainVolumes(s: Story)
    requires s.root == "r" && s.project == "p" && s.volumes == Volumes("x", "y")
    requires s.first.image == "i" && s.second.image == "j" && s.generated != []
    requires forall line | line in s.generated :: Environment.Quotable(line)
    ensures OneLine(s.root) && OneLine(s.project) && ValidVolumes(s.volumes)
    ensures OneLine(s.first.image) && OneLine(s.second.image)
    ensures Acceptable(s.generated, s.first, OwnVolumes(s), s.root)
    ensures Acceptable(s.generated, s.second, OwnVolumes(s), s.root)
    ensures Acceptable(s.generated, s.first, s.volumes, s.root)
    ensures {s.volumes.pg, s.volumes.data} !! {OwnVolumes(s).pg, OwnVolumes(s).data}
  {
    assert OwnVolumes(s).pg == "p-pg" && OwnVolumes(s).data == "p-data";
    PlainParts(s.generated, s.first, OwnVolumes(s), s.root);
    PlainParts(s.generated, s.second, OwnVolumes(s), s.root);
    PlainParts(s.generated, s.first, s.volumes, s.root);
  }

  /** Everything goes well, except the steps `raising`, of which `taking` take effect all the same. */
  function Script(s: Story, raising: set<nat>, taking: set<nat>): nat -> Outcome {
    (n: nat) => Outcome(
      n in raising, n in taking, false, false, false, false,
      IdentityOf(if 11 <= n < 28 then s.second else s.first), 0, 0, s.volumes, Writes(s, n))
  }

  /** What running stations write: nothing before step 39, and then something else in every step. */
  function Writes(s: Story, n: nat): map<string, int> {
    if n < 39 then map[] else map[OwnVolumes(s).data := n]
  }

  /** Up to the switching save of a restore the steps go well. */
  lemma GoesWell(s: Story, raising: set<nat>, taking: set<nat>)
    requires forall n | n in raising :: n >= 48
    ensures var script := Script(s, raising, taking);
            && Smooth(script, s.first, 28, 20) && script(28).volumes == s.volumes
            && script(48).raises == (48 in raising) && script(48).effect == (48 in taking)
            && Took(script(49)) == (49 in taking || 49 !in raising)
  {
  }

  function InstallArgs(release: Release, generated: seq<string>): Args {
    Args(Some(release), Some(generated), None, None, false, false, false, false)
  }

  function RestoreArgs(release: Release, dir: nat): Args {
    Args(None, None, Some(release.tag), Some(dir), true, false, false, false)
  }

  /** The story's second release is up, after its first, and nothing else has happened. */
  ghost predicate Waiting(i: Installation, s: Story)
    reads i
  {
    && i.Valid() && i.Up() && !i.inRecovery && |i.trace| == 28 && i.root == s.root
    && i.mem.value.volumes == OwnVolumes(s) && i.mem.value.previous == Some(s.first) && i.mem.value.readback.Some?
    && i.mem.value.backup == Some(0)
    && i.world.env.value.kept == s.generated && i.world.volumes.Keys == {OwnVolumes(s).pg, OwnVolumes(s).data}
    && 0 in i.world.backups && i.world.backups[0].release == s.first
  }

  /** Ten steps install the first release, and seventeen upgrade it to the second. */
  method Prepare(s: Story, raising: set<nat>, taking: set<nat>) returns (i: Installation)
    requires ValidStory(s) && forall n | n in raising :: n >= 28
    ensures fresh(i) && Waiting(i, s) && i.script == Script(s, raising, taking)
  {
    i := new Installation(s.root, s.project, Script(s, raising, taking));
    assert Smooth(i.script, s.first, 1, 10);
    var ok := i.DoInstall(InstallArgs(s.first, s.generated));
    assert i.world.volumes.Keys == {OwnVolumes(s).pg, OwnVolumes(s).data};
    assert Smooth(i.script, s.second, 11, 17);
    ok := i.DoUpgrade(InstallArgs(s.second, s.generated));
  }

  function RestorePlan(start: State, s: Story): Plan {
    Plan(start, s.first, s.volumes, true)
  }

  lemma RestoreSetsOut(i: Installation, s: Story)
    requires ValidStory(s) && Waiting(i, s) && i.script(28).volumes == s.volumes
    ensures SetsOut(i.world, i.script, 28, RestoreArgs(s.first, 0))
    ensures i.CanRollBack(RestorePlan(i.mem.value, s), i.world.env.value.kept)
  {
  }

  /** A restore whose twenty steps up to the switching save go well, and whose switching save raises. */
  method Restore(i: Installation, s: Story) returns (ok: bool)
    requires ValidStory(s) && Waiting(i, s) && i.script(28).volumes == s.volumes
    requires Smooth(i.script, s.first, 28, 20) && i.script(48).raises
    modifies i
    ensures i.Valid() && !ok && i.world.disk.Some? && i.mem.Some? && i.mem.value.phase.Failed?
    ensures i.mem.value.volumes == OwnVolumes(s)
    ensures i.world.env.Some? && i.world.env.value.volumes == s.volumes
    ensures i.script(48).effect && !Took(i.script(49)) ==>
              && i.world.disk.value.phase.Healthy?
              && i.world.disk.value.release == s.first && i.world.disk.value.volumes == s.volumes
    ensures !(i.script(48).effect && !Took(i.script(49))) ==> i.world.disk.value.volumes == OwnVolumes(s)
  {
    ghost var p := RestorePlan(i.mem.value, s);
    assert Installation.RollbackSteps(p) == 20;
    RestoreSetsOut(i, s);
    var plan;
    ok, plan := i.DoRollback(RestoreArgs(s.first, 0));
    assert plan == Some(p) && i.Reached(ok, 48, |old(i.saves)|, p);
  }

  /** From an empty root on: the switching save of the restore raises, and it fails. */
  method FailedRestore(s: Story, raising: set<nat>, taking: set<nat>) returns (i: Installation, ok: bool)
    requires ValidStory(s) && 48 in raising && forall n | n in raising :: n >= 48
    ensures i.Valid() && !ok && i.mem.Some? && i.mem.value.phase.Failed? && i.mem.value.volumes == OwnVolumes(s)
    ensures i.world.disk.Some? && i.world.env.Some? && i.world.env.value.volumes == s.volumes
    ensures 48 in taking && 49 in raising && 49 !in taking ==>
              && i.world.disk.value.phase.Healthy?
              && i.world.disk.value.release == s.first && i.world.disk.value.volumes == s.volumes
    ensures !(48 in taking && 49 in raising && 49 !in taking) ==> i.world.disk.value.volumes == OwnVolumes(s)
  {
    i := PrepareRestore(s, raising, taking);
    ok := RestoreAndHandle(i, s);
  }

  /** The failed restore with the handler behind it. */
  method RestoreAndHandle(i: Installation, s: Story) returns (ok: bool)
    requires ValidStory(s) && Waiting(i, s) && i.script(28).volumes == s.volumes
    requires Smooth(i.script, s.first, 28, 20) && i.script(48).raises
    modifies i
    ensures i.Valid() && !ok && i.mem.Some? && i.mem.value.phase.Failed? && i.mem.value.volumes == OwnVolumes(s)
    ensures i.world.disk.Some? && i.world.env.Some? && i.world.env.value.volumes == s.volumes
    ensures i.script(48).effect && !Took(i.script(49)) ==>
              && i.world.disk.value.phase.Healthy?
              && i.world.disk.value.release == s.first && i.world.disk.value.volumes == s.volumes
    ensures !(i.script(48).effect && !Took(i.script(49))) ==> i.world.disk.value.volumes == OwnVolumes(s)
  {
    ok := Restore(i, s);
    i.HandleFailure();
  }

  method PrepareRestore(s: Story, raising: set<nat>, taking: set<nat>) returns (i: Installation)
    requires ValidStory(s) && 48 in raising && forall n | n in raising :: n >= 48
    ensures fresh(i) && Waiting(i, s) && i.script(28).volumes == s.volumes && Smooth(i.script, s.first, 28, 20)
    ensures i.script(48).raises && i.script(48).effect == (48 in taking)
    ensures Took(i.script(49)) == (49 in taking || 49 !in raising)
  {
    GoesWell(s, raising, taking);
    i := Prepare(s, raising, taking);
  }

  /** The switching save raises after replacing the file, and the save of FAILED before: the operation fails, and
      the record says that it succeeded. */
  method FailedButSwitched(s: Story) returns (i: Installation, ok: bool)
    requires ValidStory(s)
    ensures i.Valid() && !ok && i.mem.Some? && i.mem.value.phase.Failed? && i.mem.value.volumes == OwnVolumes(s)
    ensures i.world.disk.Some? && i.world.disk.value.phase.Healthy?
    ensures i.world.disk.value.release == s.first && i.world.disk.value.volumes == s.volumes
  {
    i, ok := FailedRestore(s, {48, 49}, {48});
  }

  /** The switching save raises before replacing the file: the original volumes are recorded again, and the
      environment names the new ones. */
  method FailedButRebound(s: Story) returns (i: Installation, ok: bool)
    requires ValidStory(s)
    ensures i.Valid() && !ok && i.world.disk.Some? && i.world.disk.value.volumes == OwnVolumes(s)
    ensures i.world.env.Some? && i.world.env.value.volumes == s.volumes != OwnVolumes(s)
  {
    i, ok := FailedRestore(s, {48}, {});
  }

  lemma RemovalStrands(w: World, script: nat -> Outcome, n: nat, args: Args)
    requires HealthyRecord(w.disk) && ValidRelease(w.disk.value.release) && !args.purge && args.asset.None?
    requires Took(script(n)) && (script(n).raises || !Took(script(n + 1)))
    ensures LeavesAdrift(w, script, n, Uninstall, args)
  {
  }

  /** From an empty root on: a removal that takes everything down and does not replace the record. */
  method FailedRemoval(s: Story, raising: set<nat>, taking: set<nat>) returns (i: Installation, ok: bool)
    requires ValidStory(s) && forall n | n in raising :: n >= 28
    requires (28 in raising && 28 in taking) || (28 !in raising && 29 in raising && 29 !in taking)
    ensures i.Valid() && !ok && i.script == Script(s, raising, taking) && i.world.main == Project(None, None)
    ensures i.world.disk.Some? && i.world.disk.value.phase.Healthy?
  {
    i := Prepare(s, raising, taking);
    var args := RestoreArgs(s.first, 0);
    RemovalStrands(i.world, i.script, 28, args);
    ok := i.DoUninstall(args);
    i.HandleFailure();
  }

  /** A removal whose first command raises after it took effect: HEALTHY is recorded, and nothing runs. */
  method HealthyButDown(s: Story) returns (i: Installation, ok: bool)
    requires ValidStory(s)
    ensures i.Valid() && !ok && i.script(28).raises && i.world.main == Project(None, None)
    ensures i.world.disk.Some? && i.world.disk.value.phase.Healthy?
  {
    i, ok := FailedRemoval(s, {28}, {28});
  }

  /** A removal whose commands go well and whose save raises before replacing the file: likewise. */
  method RemovedButHealthy(s: Story) returns (i: Installation, ok: bool)
    requires ValidStory(s)
    ensures i.Valid() && !ok && !i.script(28).raises && i.world.main == Project(None, None)
    ensures i.world.disk.Some? && i.world.disk.value.phase.Healthy?
  {
    i, ok := FailedRemoval(s, {29}, {});
  }

  /** From an empty root on: a restore that stops the station and then cannot record anything. */
  method UnrecordedRestore(s: Story, raising: set<nat>) returns (i: Installation, ok: bool)
    requires ValidStory(s) && 29 in raising && 30 in raising && forall n | n in raising :: n >= 29
    ensures i.Valid() && !ok && Adrift(i.world)
  {
    i := Prepare(s, raising, {});
    ok := RestoreUnrecorded(i, s);
  }

  method RestoreUnrecorded(i: Installation, s: Story) returns (ok: bool)
    requires ValidStory(s) && Waiting(i, s) && i.script(28).volumes == s.volumes
    requires Took(i.script(28)) && NeverRecorded(i.script, 28, true)
    modifies i
    ensures i.Valid() && !ok && Adrift(i.world)
  {
    RestoreSetsOut(i, s);
    var args := RestoreArgs(s.first, 0);
    assert LeavesAdrift(i.world, i.script, 28, Rollback, args);
    ok := i.Execute(Rollback, args);
  }

  /** A restore that stops the station, and whose first save raises before replacing the file, as does the save of
      FAILED: HEALTHY is recorded over a stopped station. */
  method StoppedButHealthy(s: Story) returns (i: Installation, ok: bool)
    requires ValidStory(s)
    ensures i.Valid() && !ok && Adrift(i.world)
  {
    i, ok := UnrecordedRestore(s, {29, 30});
  }

  function InPlaceArgs(release: Release): Args {
    Args(None, None, Some(release.tag), None, false, true, false, false)
  }

  lemma InPlaceSetsOut(i: Installation, s: Story)
    requires ValidStory(s) && Waiting(i, s) && !i.script(28).raises
    ensures SetsOut(i.world, i.script, 28, InPlaceArgs(s.first))
    ensures i.CanRollBack(Plan(i.mem.value, s.first, OwnVolumes(s), false), i.world.env.value.kept)
  {
  }

  /** The installation failed to go back, and what it tried still runs on the installation's volumes. */
  ghost predicate TrialLeft(i: Installation, s: Story)
    reads i
  {
    && i.Valid() && !i.inRecovery && |i.trace| == 39 && i.mem.Some? && i.world.disk == i.mem
    && OnVolumes(i.world.recovery, OwnVolumes(s)) && i.mem.value.volumes == OwnVolumes(s)
    && i.mem.value.previous == Some(s.first) && i.mem.value.readback.Some?
    && i.world.volumes.Keys == {OwnVolumes(s).pg, OwnVolumes(s).data}
    && 0 in i.world.backups && i.world.backups[0].release == s.first
  }

  /** A rollback in place whose trial starts and whose readback raises: its project is left running, on the volumes
      of the installation. */
  method LeaveTrial(i: Installation, s: Story)
    requires ValidStory(s) && Waiting(i, s) && !i.script(28).raises
    requires RaisesAfter(i.script, s.first, 29, 8) && Took(i.script(38))
    modifies i
    ensures TrialLeft(i, s)
  {
    ghost var plan := Plan(i.mem.value, s.first, OwnVolumes(s), false);
    assert Installation.BackStep(plan) == 8;
    InPlaceSetsOut(i, s);
    var ok, made := i.DoRollback(InPlaceArgs(s.first));
    assert made == Some(plan) && i.GivenUp(37, plan, old(i.world).volumes.Keys);
    assert i.trace[27] == old(i.world) by {
      assert At(i.trace, 27) == At(old(i.trace), 27);
    }
    BackupsStay(i.trace, 27, 38, 0);
  }

  /** A restore then: the recovery station goes on writing to the installation's own data after the restore has
      stopped the installation's own station. */
  method DisturbedRestore(i: Installation, s: Story)
    requires ValidStory(s) && TrialLeft(i, s) && i.script(39).volumes == s.volumes && !i.script(39).raises
    requires i.script(39).noise == Writes(s, 39) && i.script(40).noise == Writes(s, 40)
    modifies i
    ensures i.Valid() && |i.trace| > 40 && Disturbed(i.trace[39], i.trace[40], OwnVolumes(s).data)
  {
    var args := RestoreArgs(s.first, 0);
    assert SetsOut(i.world, i.script, 39, args);
    var ok, plan := i.DoRollback(args);
    assert FirstMoments(old(i.world), i.trace, i.script, 39);
    RestoreIsWrittenTo(old(i.world), i.trace, i.script, 39, OwnVolumes(s).data);
  }

  /** With the installation's station stopped in `w`, the volume holds something else in `w'`. */
  predicate Disturbed(w: World, w': World, v: string) {
    && !Running(w.main.station) && v in w.volumes && v in w'.volumes && w'.volumes[v] != w.volumes[v]
  }

  /** From an empty root on: an installation, an upgrade, a rollback in place that fails and a restore. */
  method WrittenDuringRestore(s: Story) returns (i: Installation)
    requires ValidStory(s)
    ensures i.Valid() && |i.trace| > 40 && Disturbed(i.trace[39], i.trace[40], OwnVolumes(s).data)
  {
    i := PrepareTrial(s, {37});
    LeaveTrial(i, s);
    DisturbedRestore(i, s);
  }

  method PrepareTrial(s: Story, raising: set<nat>) returns (i: Installation)
    requires ValidStory(s) && 37 in raising && forall n | n in raising :: n == 37
    ensures fresh(i) && Waiting(i, s) && !i.script(28).raises && RaisesAfter(i.script, s.first, 29, 8)
    ensures Took(i.script(38)) && i.script(39).volumes == s.volumes && !i.script(39).raises
    ensures i.script(39).noise == Writes(s, 39) && i.script(40).noise == Writes(s, 40)
  {
    i := Prepare(s, raising, {});
  }
}
