/** What a Station installation consists of outside the installer process, and what every step of
    every operation keeps true of it. */
module InstallerWorld {
  import opened Versions
  import opened TextLines
  import Environment
  import opened Wrappers

  datatype Release = Release(tag: Tag, source: string, image: string)

  /** What a running station reports about its build. */
  datatype Identity = Identity(commit: string, tag: Tag)

  function IdentityOf(r: Release): Identity {
    Identity(r.source, r.tag)
  }

  datatype Phase =
    | Installing | Healthy | BackingUp | BackedUp | Upgrading
    | Restoring | RollingBack | Failed | Stopped | Purged

  datatype Volumes = Volumes(pg: string, data: string)

  /** The fields of `state.json` that decide what an operation does. */
  datatype State = State(
    phase: Phase, release: Release, volumes: Volumes,
    previous: Option<Release>, attempted: Option<Release>, readback: Option<int>, backup: Option<nat>)

  /** A `.env` file: the lines the installer preserves, and the ones it manages. */
  datatype Env = Env(kept: seq<string>, image: string, volumes: Volumes)

  function EnvText(e: Env, root: string): string {
    TextLines.JoinLines(e.kept + Environment.Managed(e.image, e.volumes.pg, e.volumes.data, root))
  }

  /** A backup whose manifest has been written; its files match their digests. */
  datatype Backup = Backup(release: Release, env: Env)

  datatype Container = Container(running: bool, volume: string, identity: Identity)

  /** The containers of one compose project. */
  datatype Project = Project(postgres: Option<Container>, station: Option<Container>)

  /** Everything that outlives the installer process.  `disk` is `state.json` as programs read it, `found` what
      may be read from it after a power loss; `composeFile` says whether there is a `docker-compose.yml`, and
      `volumes` maps a volume to what it holds. */
  datatype World = World(
    disk: Option<State>, found: set<Option<State>>, env: Option<Env>, composeFile: bool, recoveryEnvs: seq<Env>,
    backups: map<nat, Backup>, main: Project, recovery: Project, volumes: map<string, int>)

  predicate Running(c: Option<Container>) {
    c.Some? && c.value.running
  }

  /** The project's own station runs the build of this release. */
  predicate Serves(p: Project, r: Release) {
    Running(p.station) && p.station.value.identity == IdentityOf(r)
  }

  predicate HealthyRecord(d: Option<State>) {
    d.Some? && d.value.phase.Healthy?
  }

  /** HEALTHY is recorded, and the installation's station does not run the recorded build. */
  predicate Adrift(w: World) {
    HealthyRecord(w.disk) && !Serves(w.main, w.disk.value.release)
  }

  predicate Mounts(p: Project, volume: string) {
    (p.postgres.Some? && p.postgres.value.volume == volume) || (p.station.Some? && p.station.value.volume == volume)
  }

  /** Some running station, of either project, reports the build of this release. */
  predicate Answers(w: World, r: Release) {
    Serves(w.main, r) || Serves(w.recovery, r)
  }

  predicate RecoveryIdle(w: World) {
    !Running(w.recovery.postgres) && !Running(w.recovery.station)
  }

  /** Two running PostgreSQL servers on one volume. */
  predicate DoubleMount(w: World) {
    && Running(w.main.postgres) && Running(w.recovery.postgres)
    && w.main.postgres.value.volume == w.recovery.postgres.value.volume
  }

  /** A running station may write to this volume, directly or through its database. */
  predicate Busy(w: World, v: string) {
    BusyIn(w.main, v) || BusyIn(w.recovery, v)
  }

  predicate BusyIn(p: Project, v: string) {
    Running(p.station) && (p.station.value.volume == v || (p.postgres.Some? && p.postgres.value.volume == v))
  }

  /** `next` follows `prior` in the order of versions, within one major version. */
  predicate Upgrades(prior: Release, next: Release)
    requires ValidTag(prior.tag) && ValidTag(next.tag)
  {
    KeyLess(KeyOf(prior.tag), KeyOf(next.tag)) && KeyOf(prior.tag).major == KeyOf(next.tag).major
  }

  predicate ValidRelease(r: Release) {
    ValidTag(r.tag) && OneLine(r.image)
  }

  predicate ValidVolumes(v: Volumes) {
    OneLine(v.pg) && OneLine(v.data)
  }

  /** Once an upgrade was attempted, the recorded release is one of its two ends. */
  predicate StateInv(s: State) {
    && ValidRelease(s.release) && ValidVolumes(s.volumes)
    && (s.previous.Some? <==> s.attempted.Some?)
    && (s.attempted.Some? ==>
          && ValidRelease(s.previous.value) && ValidRelease(s.attempted.value)
          && Upgrades(s.previous.value, s.attempted.value)
          && (s.release == s.previous.value || s.release == s.attempted.value))
  }

  /** How the recorded release may change: not at all, by a fresh install, by the upgrade on record to a later
      version, or by a rollback to the version on record as the one before. */
  predicate ReleaseStep(d: Option<State>, s: State)
    requires d.Some? ==> StateInv(d.value)
    requires StateInv(s)
  {
    || d.None?
    || d.value.release == s.release
    || (d.value.phase.Purged? && s.attempted.None?)
    || (&& d.value.attempted == Some(s.release) && s.attempted == d.value.attempted
        && s.previous == Some(d.value.release) && s.previous == d.value.previous
        && Upgrades(d.value.release, s.release))
    || (d.value.previous == Some(s.release) && s.previous == d.value.previous && s.attempted == d.value.attempted)
  }

  ghost predicate EnvInv(e: Env) {
    && e.kept != [] && OneLine(e.image) && ValidVolumes(e.volumes)
    && forall line | line in e.kept :: Environment.Kept(line) && OneLine(line)
  }

  /** Every copy of the environment holds the same preserved lines as the installed one. */
  ghost predicate EnvsInv(env: Option<Env>, backups: map<nat, Backup>, recoveryEnvs: seq<Env>) {
    && (env.Some? ==> EnvInv(env.value))
    && (forall b | b in backups ::
          && env.Some? && EnvInv(backups[b].env) && backups[b].env.kept == env.value.kept
          && ValidRelease(backups[b].release))
    && (forall i | 0 <= i < |recoveryEnvs| ::
          env.Some? && EnvInv(recoveryEnvs[i]) && recoveryEnvs[i].kept == env.value.kept)
  }

  predicate MountsIn(p: Project, volumes: map<string, int>) {
    && (p.postgres.Some? ==> p.postgres.value.volume in volumes)
    && (p.station.Some? ==> p.station.value.volume in volumes)
  }

  /** A record that a power loss may leave is a valid one, and HEALTHY only if no recovery station runs. */
  predicate FoundInv(d: Option<State>, recovery: Project) {
    (d.Some? ==> StateInv(d.value)) && (HealthyRecord(d) ==> !Running(recovery.station))
  }

  ghost predicate WorldInv(w: World) {
    && FoundInv(w.disk, w.recovery) && (forall d | d in w.found :: FoundInv(d, w.recovery))
    && EnvsInv(w.env, w.backups, w.recoveryEnvs)
    && MountsIn(w.main, w.volumes) && MountsIn(w.recovery, w.volumes)
    && !(Running(w.main.station) && Running(w.recovery.station))
  }

  /** HEALTHY is not recorded, nor would it be after a power loss. */
  ghost predicate NoneHealthy(w: World) {
    !HealthyRecord(w.disk) && forall d | d in w.found :: !HealthyRecord(d)
  }

  /** What one step of any operation may do to the persistent state. */
  ghost predicate StepInv(w: World, w': World)
    requires WorldInv(w) && WorldInv(w')
  {
    && (w'.disk != w.disk ==>
          && w'.disk.Some? && ReleaseStep(w.disk, w'.disk.value)
          && (w'.disk.value.phase.Healthy? ==> Serves(w'.main, w'.disk.value.release)))
    && (w.env.Some? ==> w'.env.Some? && w'.env.value.kept == w.env.value.kept)
    && (forall b | b in w.backups :: b in w'.backups && w'.backups[b] == w.backups[b])
    && w.recoveryEnvs <= w'.recoveryEnvs
    && w'.found <= w.found + {w'.disk}
  }

  ghost function At(trace: seq<World>, i: nat): World
    requires i < |trace|
  {
    trace[i]
  }

  /** The container is gone, or still what it was, though perhaps stopped. */
  predicate Weakened(c: Option<Container>, c': Option<Container>) {
    || c'.None?
    || (c.Some? && c'.value.volume == c.value.volume && c'.value.identity == c.value.identity
        && (c'.value.running ==> c.value.running))
  }

  predicate ProjectWeakened(p: Project, p': Project) {
    Weakened(p.postgres, p'.postgres) && Weakened(p.station, p'.station)
  }

  /** The world after a power loss: one of the records that could be found, now for good, and of the containers
      that ran, those that came back. */
  function AfterPowerLoss(w: World, d: Option<State>, main: Project, recovery: Project): World {
    w.(disk := d, found := {d}, main := main, recovery := recovery)
  }

  predicate PowerLost(w: World, w': World) {
    && w'.disk in w.found && ProjectWeakened(w.main, w'.main) && ProjectWeakened(w.recovery, w'.recovery)
    && w' == AfterPowerLoss(w, w'.disk, w'.main, w'.recovery)
  }

  /** A step of an operation, or a power loss. */
  ghost predicate Moves(w: World, w': World)
    requires WorldInv(w) && WorldInv(w')
  {
    StepInv(w, w') || PowerLost(w, w')
  }

  lemma PowerLossKeeps(w: World, w': World)
    requires WorldInv(w) && PowerLost(w, w')
    ensures WorldInv(w')
  {
  }

  /** `b` is `a` and what came after it. */
  ghost predicate Continues(a: seq<World>, b: seq<World>) {
    |a| <= |b| && forall i: nat | i < |a| :: At(b, i) == At(a, i)
  }

  /** A history of the world, one entry for every moment at which the installer could be cut off. */
  ghost predicate GoodTrace(trace: seq<World>) {
    && |trace| > 0
    && (forall i: nat | i < |trace| :: WorldInv(At(trace, i)))
    && (forall i: nat | 0 < i < |trace| :: Moves(At(trace, i - 1), At(trace, i)))
  }

  /** What the volumes hold does not matter to the invariants. */
  lemma TraceExtends(trace: seq<World>, next: World, w: World)
    requires GoodTrace(trace) && WorldInv(trace[|trace| - 1]) && WorldInv(next) && StepInv(trace[|trace| - 1], next)
    requires w == next.(volumes := w.volumes) && w.volumes.Keys == next.volumes.Keys
    ensures GoodTrace(trace + [w]) && WorldInv(w)
  {
    assert WorldInv(w) && StepInv(trace[|trace| - 1], w);
    TraceGrows(trace, w);
  }

  lemma TraceGrows(trace: seq<World>, w: World)
    requires GoodTrace(trace) && WorldInv(trace[|trace| - 1]) && WorldInv(w) && Moves(trace[|trace| - 1], w)
    ensures GoodTrace(trace + [w])
  {
    var longer := trace + [w];
    forall i: nat | i < |longer| ensures WorldInv(At(longer, i)) {
      if i < |trace| {
        assert At(longer, i) == At(trace, i);
      }
    }
    forall i: nat | 0 < i < |longer| ensures Moves(At(longer, i - 1), At(longer, i)) {
      if i < |trace| {
        assert Moves(At(trace, i - 1), At(trace, i));
      }
    }
  }

  // ---------------------------------------------------------------------------
  // What a good history means
  // ---------------------------------------------------------------------------

  /** Credentials are made once: from the first `.env` on, every later one, and every backup and
      recovery copy there ever is, holds the same preserved lines. */
  lemma {:induction false} CredentialsNeverRotate(trace: seq<World>, i: nat, j: nat)
    requires GoodTrace(trace) && i <= j < |trace| && trace[i].env.Some?
    ensures trace[j].env.Some? && trace[j].env.value.kept == trace[i].env.value.kept
    ensures forall b | b in trace[j].backups :: trace[j].backups[b].env.kept == trace[i].env.value.kept
    ensures forall k | 0 <= k < |trace[j].recoveryEnvs| :: trace[j].recoveryEnvs[k].kept == trace[i].env.value.kept
    decreases j
  {
    if i < j {
      CredentialsNeverRotate(trace, i, j - 1);
      assert Moves(At(trace, j - 1), At(trace, j));
    }
    assert WorldInv(At(trace, j));
  }

  /** A backup stays what it is. */
  lemma {:induction false} BackupsStay(trace: seq<World>, i: nat, j: nat, b: nat)
    requires GoodTrace(trace) && i <= j < |trace| && b in trace[i].backups
    ensures b in trace[j].backups && trace[j].backups[b] == trace[i].backups[b]
    decreases j
  {
    if i < j {
      BackupsStay(trace, i, j - 1, b);
      assert Moves(At(trace, j - 1), At(trace, j));
    }
  }

  /** Reading a stored copy back as text finds those lines again. */
  lemma StoredEnvReadsBack(e: Env, root: string)
    requires EnvInv(e) && OneLine(root)
    ensures Environment.Preserved(EnvText(e, root)) == e.kept
  {
    Environment.PreservedSurvives(e.kept, e.image, e.volumes.pg, e.volumes.data, root);
  }

  /** The step from `w` to `w'` is neither a rollback nor a fresh install, and no power loss sets the record back. */
  ghost predicate NoStepBack(w: World, w': World)
    requires WorldInv(w) && WorldInv(w')
  {
    w.disk.Some? && w'.disk != w.disk ==>
      && StepInv(w, w')
      && (w.disk.value.release != w'.disk.value.release ==>
            !w.disk.value.phase.Purged? && w'.disk.value.previous != Some(w'.disk.value.release))
  }

  /** As long as no rollback, no fresh install and no power loss changes the record, the recorded versions only
      increase. */
  lemma {:induction false} VersionsIncrease(trace: seq<World>, i: nat, j: nat)
    requires GoodTrace(trace) && i <= j < |trace| && trace[i].disk.Some?
    requires forall k: nat | i <= k < j :: NoStepBack(At(trace, k), At(trace, k + 1))
    ensures trace[j].disk.Some?
    ensures trace[j].disk.value.release == trace[i].disk.value.release
         || (&& WorldInv(trace[i]) && WorldInv(trace[j])
             && Upgrades(trace[i].disk.value.release, trace[j].disk.value.release))
    decreases j
  {
    assert WorldInv(At(trace, i)) && WorldInv(At(trace, j));
    if i < j {
      VersionsIncrease(trace, i, j - 1);
      assert WorldInv(At(trace, j - 1)) && NoStepBack(At(trace, j - 1), At(trace, j - 1 + 1));
      var a, b, c := trace[i].disk.value.release, trace[j - 1].disk.value.release, trace[j].disk.value.release;
      KeyOrder(KeyOf(a.tag), KeyOf(b.tag), KeyOf(c.tag));
    }
  }

  /** How the recorded release can change in a history: by a power loss that sets the record back, or by a fresh
      install, the upgrade on record to a later version, or a rollback to the release on record as previous. */
  lemma ReleaseChanges(trace: seq<World>, k: nat)
    requires GoodTrace(trace) && k + 1 < |trace| && trace[k].disk.Some?
    ensures WorldInv(trace[k]) && WorldInv(trace[k + 1])
    ensures PowerLost(trace[k], trace[k + 1])
         || (&& trace[k + 1].disk.Some?
             && var d, s := trace[k].disk.value, trace[k + 1].disk.value;
                d.release != s.release ==>
                  || (d.phase.Purged? && s.attempted.None?)
                  || (&& d.attempted == Some(s.release) && s.previous == Some(d.release)
                      && Upgrades(d.release, s.release))
                  || (d.previous == Some(s.release) && s.previous == d.previous && s.attempted == d.attempted))
  {
    assert WorldInv(At(trace, k)) && WorldInv(At(trace, k + 1));
    assert Moves(At(trace, k + 1 - 1), At(trace, k + 1));
  }

  /** Where nothing but the record itself could be found at first, a power loss at any later moment leaves a record
      that was there at some moment, whole. */
  lemma {:induction false} PowerLossLeavesRecord(trace: seq<World>, i: nat, d: Option<State>) returns (k: nat)
    requires GoodTrace(trace) && i < |trace| && trace[0].found == {trace[0].disk} && d in trace[i].found
    ensures k <= i && trace[k].disk == d
  {
    if d == trace[i].disk {
      k := i;
    } else {
      assert i > 0 ==> Moves(At(trace, i - 1), At(trace, i));
      k := PowerLossLeavesRecord(trace, i - 1, d);
    }
  }
}
