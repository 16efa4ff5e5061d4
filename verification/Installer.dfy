/** The Station installer: its operations, step by step, against a world in which every external
    step may fail, with or without effect, and the process may be cut off after any of them. */
module Installer {
  import opened Versions
  import opened TextLines
  import opened InstallerWorld
  import Environment
  import AtomicFile
  import opened Wrappers

  /** The command line and what it makes available.  `asset` is the release description after its
      checks, `generated` the lines a first `.env` would get (none when the options or ports are
      refused), and `compatible` the verdict on the compatibility proof. */
  datatype Args = Args(
    asset: Option<Release>, generated: Option<seq<string>>,
    target: Option<Tag>, restore: Option<nat>, confirmLoss: bool, compatible: bool,
    purge: bool, confirmPurge: bool)

  datatype Operation = Install | MakeBackup | Upgrade | Rollback | Uninstall

  /** How an invocation ends: by itself, killed after step `at`, or by a power loss then, with what is left. */
  datatype Ending =
    | Returns
    | Killed(at: nat)
    | PowerLoss(at: nat, left: Option<State>, main: Project, recovery: Project)

  /** No option value smuggles a line break into the environment. */
  ghost predicate ValidArgs(args: Args) {
    && (args.asset.Some? ==> ValidRelease(args.asset.value))
    && GeneratedLines(args.generated)
  }

  ghost predicate GeneratedLines(generated: Option<seq<string>>) {
    generated.Some? ==>
      && generated.value != []
      && forall line | line in generated.value :: Environment.Kept(line) && OneLine(line)
  }

  // ---------------------------------------------------------------------------
  // What happens at a step
  // ---------------------------------------------------------------------------

  /** The outcome of one step.  A step that does not raise has its whole effect; one that raises may have it
      too, or, for a compose command, remove or start single containers.  The other fields are what the step
      finds or produces: the build that a started station reports, a number read back or a volume's new
      content, the name of a backup or of new volumes, and what running stations write meanwhile. */
  datatype Outcome = Outcome(
    raises: bool, effect: bool, pgGone: bool, stationGone: bool, pgUp: bool, stationUp: bool,
    identity: Identity, number: int, dir: nat, volumes: Volumes, noise: map<string, int>)

  predicate Took(o: Outcome) {
    o.effect || !o.raises
  }

  predicate Fine(o: Outcome, release: Release) {
    !o.raises && o.identity == IdentityOf(release)
  }

  /** These steps go well, and what they start is built from `release`. */
  ghost predicate Smooth(script: nat -> Outcome, release: Release, from: nat, steps: nat) {
    forall n: nat | from <= n < from + steps :: Fine(script(n), release)
  }

  /** These steps go well, and the next one raises. */
  ghost predicate RaisesAfter(script: nat -> Outcome, release: Release, from: nat, steps: nat) {
    Smooth(script, release, from, steps) && script(from + steps).raises
  }

  lemma EarlierSteps(script: nat -> Outcome, release: Release, n: nat, first: nat, rest: nat)
    ensures Smooth(script, release, n, first + rest) ==> Smooth(script, release, n, first)
  {
  }

  lemma LaterSteps(script: nat -> Outcome, release: Release, n: nat, first: nat, later: nat, rest: nat)
    requires later == n + first
    ensures Smooth(script, release, n, first + rest) ==> Smooth(script, release, later, rest)
    ensures RaisesAfter(script, release, n, first + rest) ==> RaisesAfter(script, release, later, rest)
  {
    assert n + (first + rest) == later + rest;
  }

  /** The project's station runs on these volumes. */
  predicate OnVolumes(p: Project, volumes: Volumes) {
    Running(p.station) && p.station.value.volume == volumes.data
  }

  /** The phases in the middle of a change, of which `main` makes FAILED. */
  predicate Changing(phase: Phase) {
    phase.Installing? || phase.Upgrading? || phase.Restoring? || phase.RollingBack?
  }

  /** One save: what was to be recorded, whether the file was replaced and whether the save raised. */
  datatype Saved = Saved(state: State, replaced: bool, raised: bool)

  /** The outcomes of `Save` are those of `atomic_json`: whether the file is replaced and whether an error is raised. */
  lemma SaveIsAtomicWrite(o: Outcome) returns (fails: nat -> bool)
    ensures AtomicFile.Replaced(fails) == Took(o) && AtomicFile.Succeeds(fails) == !o.raises
  {
    fails := (k: nat) => if k == 3 then !Took(o) else k == 5 && o.raises;
  }

  lemma AtomicWriteIsSave(fails: nat -> bool, o: Outcome) returns (o': Outcome)
    ensures AtomicFile.Replaced(fails) == Took(o') && AtomicFile.Succeeds(fails) == !o'.raises
  {
    o' := o.(raises := !AtomicFile.Succeeds(fails), effect := AtomicFile.Replaced(fails));
  }

  /** Volumes that no running station can write to hold what they held. */
  ghost predicate Quiet(w: World, w': World) {
    forall v | v in w.volumes && v in w'.volumes && !Busy(w', v) :: w'.volumes[v] == w.volumes[v]
  }

  /** Running stations have written `noise` to the volumes that they can write to; the others hold what they held. */
  ghost predicate NoiseIn(w: World, w': World, noise: map<string, int>) {
    forall v | v in w.volumes && v in w'.volumes ::
      w'.volumes[v] == if Busy(w', v) && v in noise then noise[v] else w.volumes[v]
  }

  ghost predicate SameRecords(w: World, w': World) {
    && w'.disk == w.disk && w'.found == w.found && w'.env == w.env
    && w'.recoveryEnvs == w.recoveryEnvs && w'.backups == w.backups
  }

  ghost predicate SameContainers(w: World, w': World) {
    w'.main == w.main && w'.recovery == w.recovery
  }

  function Halted(c: Option<Container>): Option<Container> {
    if c.Some? then Some(c.value.(running := false)) else None
  }

  /** Every line of the file passes the check before writing. */
  predicate Acceptable(kept: seq<string>, release: Release, volumes: Volumes, root: string) {
    forall line | line in kept + Environment.Managed(release.image, volumes.pg, volumes.data, root) ::
      Environment.Quotable(line)
  }

  /** The world after running stations have written to their volumes. */
  function Noisy(w: World, noise: map<string, int>): World {
    w.(volumes := map v | v in w.volumes :: if Busy(w, v) && v in noise then noise[v] else w.volumes[v])
  }

  lemma NoisyKeeps(w: World, noise: map<string, int>)
    ensures var w' := Noisy(w, noise);
            && SameRecords(w, w') && SameContainers(w, w') && w'.composeFile == w.composeFile
            && w'.volumes.Keys == w.volumes.Keys && Quiet(w, w') && w' == w.(volumes := w'.volumes)
            && NoiseIn(w, w', noise)
  {
  }

  /** A volume keeps its content, whatever running stations write, if and only if none of them can write to it. */
  lemma StaysWhateverIsWritten(w: World, v: string)
    requires v in w.volumes
    ensures (forall noise :: Noisy(w, noise).volumes[v] == w.volumes[v]) <==> !Busy(w, v)
  {
    if Busy(w, v) {
      assert Noisy(w, map[v := w.volumes[v] + 1]).volumes[v] != w.volumes[v];
    }
  }

  function WithProject(w: World, recovery: bool, p: Project): World {
    if recovery then w.(recovery := p) else w.(main := p)
  }

  function ProjectOf(w: World, recovery: bool): Project {
    if recovery then w.recovery else w.main
  }

  /** A station may run if it ran before, or if it can have the port. */
  ghost predicate MayRun(w: World, recovery: bool, station: Option<Container>) {
    Running(station) ==>
      || Running(ProjectOf(w, recovery).station)
      || (!Running(ProjectOf(w, !recovery).station) && (recovery ==> NoneHealthy(w)))
  }

  lemma ProjectMoves(w: World, recovery: bool, p: Project)
    requires WorldInv(w) && MountsIn(p, w.volumes) && MayRun(w, recovery, p.station)
    ensures var w' := WithProject(w, recovery, p);
            && WorldInv(w') && StepInv(w, w') && SameRecords(w, w') && w'.volumes == w.volumes
            && ProjectOf(w', recovery) == p && ProjectOf(w', !recovery) == ProjectOf(w, !recovery)
  {
    OnlyContainers(w, WithProject(w, recovery, p));
  }

  /** A step that touches nothing but containers keeps what every step keeps. */
  lemma OnlyContainers(w: World, w': World)
    requires WorldInv(w) && SameRecords(w, w') && w'.volumes == w.volumes
    requires MountsIn(w'.main, w.volumes) && MountsIn(w'.recovery, w.volumes)
    requires !(Running(w'.main.station) && Running(w'.recovery.station))
    requires Running(w'.recovery.station) ==> Running(w.recovery.station) || NoneHealthy(w)
    ensures WorldInv(w') && StepInv(w, w')
  {
  }

  lemma BackupSealed(w: World, dir: nat, release: Release)
    requires WorldInv(w) && w.env.Some? && dir !in w.backups && ValidRelease(release)
    ensures var w' := w.(backups := w.backups[dir := Backup(release, w.env.value)]); WorldInv(w') && StepInv(w, w')
  {
  }

  function WithEnv(w: World, recovery: bool, e: Env): World {
    if recovery then w.(recoveryEnvs := w.recoveryEnvs + [e]) else w.(env := Some(e))
  }

  lemma EnvWritten(w: World, recovery: bool, e: Env)
    requires WorldInv(w) && EnvInv(e)
    requires if w.env.Some? then e.kept == w.env.value.kept else !recovery
    ensures var w' := WithEnv(w, recovery, e); WorldInv(w') && StepInv(w, w')
  {
  }

  /** What `docker compose up` needs: the environment names volumes that exist, and the port is free. */
  predicate MayStart(other: Project, e: Option<Env>, volumes: map<string, int>, withStation: bool) {
    && e.Some? && e.value.volumes.pg in volumes
    && (withStation ==> e.value.volumes.data in volumes && !Running(other.station))
  }

  /** The project after `docker compose up`, which may have started or removed single containers only. */
  function Started(
    p: Project, other: Project, e: Option<Env>, volumes: map<string, int>, o: Outcome, withStation: bool): Project
  {
    var all := o.effect || (!o.raises && MayStart(other, e, volumes, withStation));
    var startPg := (all || o.pgUp) && MayStart(other, e, volumes, false);
    var startStation := (all || o.stationUp) && withStation && e.Some? && e.value.volumes.data in volumes
      && !Running(other.station);
    Project(
      if startPg then Some(Container(true, e.value.volumes.pg, o.identity)) else if o.pgGone then None else p.postgres,
      if startStation then Some(Container(true, e.value.volumes.data, o.identity))
      else if o.stationGone && withStation then None else p.station)
  }

  /** A container is what it was, or gone, or it mounts what the environment says. */
  predicate StartsFrom(p: Project, e: Option<Env>, withStation: bool, p': Project) {
    && (p'.postgres == p.postgres || p'.postgres.None?
        || (e.Some? && p'.postgres.value.volume == e.value.volumes.pg))
    && (p'.station == p.station || (withStation &&
        (p'.station.None? || (e.Some? && p'.station.value.volume == e.value.volumes.data))))
  }

  predicate IsUp(p: Project, e: Option<Env>, identity: Identity, withStation: bool) {
    && e.Some? && p.postgres == Some(Container(true, e.value.volumes.pg, identity))
    && (withStation ==> p.station == Some(Container(true, e.value.volumes.data, identity)))
  }

  lemma StartedMeans(
    p: Project, other: Project, e: Option<Env>, volumes: map<string, int>, o: Outcome, withStation: bool)
    requires MountsIn(p, volumes)
    ensures var p' := Started(p, other, e, volumes, o, withStation);
            && StartsFrom(p, e, withStation, p') && MountsIn(p', volumes)
            && (!o.raises && MayStart(other, e, volumes, withStation) ==> IsUp(p', e, o.identity, withStation))
            && (Running(p'.station) ==> Running(p.station) || (withStation && !Running(other.station)))
  {
  }

  // ---------------------------------------------------------------------------
  // Rollback
  // ---------------------------------------------------------------------------

  /** What a rollback sets out to do: from the record `start` back to `prior`, on `volumes`. */
  datatype Plan = Plan(start: State, prior: Release, volumes: Volumes, restoring: bool)

  /** The one record that switches everything. */
  predicate IsSwitch(s: State, plan: Plan) {
    s.phase.Healthy? && s.release == plan.prior && s.volumes == plan.volumes
  }

  /** A record that names the original volumes, or the one that switches everything. */
  predicate RecordedState(d: Option<State>, plan: Plan) {
    d.Some? && (d.value.volumes == plan.start.volumes || IsSwitch(d.value, plan))
  }

  predicate Recorded(w: World, plan: Plan) {
    RecordedState(w.disk, plan)
  }

  /** The same of everything that a power loss may leave of the record. */
  ghost predicate FoundRecorded(w: World, plan: Plan) {
    forall d | d in w.found :: RecordedState(d, plan)
  }

  /** A power loss leaves the record as it is. */
  predicate Settled(w: World) {
    w.found == {w.disk}
  }

  /** The last two saves of a failed rollback, of those after the first `n`: the switching one replaced the file
      and raised, and the one of FAILED did not replace it. */
  predicate SwitchStays(saves: seq<Saved>, n: nat, plan: Plan) {
    && |saves| >= n + 2
    && IsSwitch(saves[|saves| - 2].state, plan) && saves[|saves| - 2].replaced && saves[|saves| - 2].raised
    && !saves[|saves| - 1].replaced
  }

  /** After `before` one more save came, the switching one; it raised, and the record `d` says whether it replaced
      the file. */
  predicate SwitchRaised(before: seq<Saved>, after: seq<Saved>, d: Option<State>, plan: Plan) {
    && |after| == |before| + 1 && after[..|before|] == before
    && IsSwitch(after[|before|].state, plan) && after[|before|].raised && d.Some?
    && (after[|before|].replaced ==> IsSwitch(d.value, plan))
    && (!after[|before|].replaced ==> d.value.volumes == plan.start.volumes)
  }

  /** No save came after `before`, and the record names the original volumes. */
  predicate NoSwitch(before: seq<Saved>, after: seq<Saved>, d: Option<State>, plan: Plan) {
    after == before && d.Some? && d.value.volumes == plan.start.volumes
  }

  /** The record after a failed rollback: the switching one exactly if its save replaced the file and raised and the
      save of FAILED did not replace it, and otherwise one of the original volumes. */
  predicate LeftRecord(d: Option<State>, saves: seq<Saved>, n: nat, plan: Plan) {
    && d.Some?
    && (SwitchStays(saves, n, plan) ==> IsSwitch(d.value, plan))
    && (!SwitchStays(saves, n, plan) ==> d.value.volumes == plan.start.volumes)
  }

  /** How the last two saves, of those after the first `n`, went: the switching one raised at the step `o`, and the
      one of FAILED came at the step `o'`. */
  predicate SavedAt(saves: seq<Saved>, n: nat, plan: Plan, o: Outcome, o': Outcome) {
    && |saves| >= n + 2 && IsSwitch(saves[|saves| - 2].state, plan)
    && saves[|saves| - 2].replaced == o.effect && saves[|saves| - 2].raised
    && saves[|saves| - 1].replaced == Took(o')
  }

  /** The `finally` of a rollback, after an attempt that left the record `d`. */
  lemma FinallyLeaves(
    before: seq<Saved>, after: seq<Saved>, d: Option<State>, failed: Saved, d': Option<State>, plan: Plan)
    requires |before| > 0 && !before[|before| - 1].state.phase.Healthy?
    requires SwitchRaised(before, after, d, plan) || NoSwitch(before, after, d, plan)
    requires failed.state.volumes == plan.start.volumes && d' == if failed.replaced then Some(failed.state) else d
    ensures LeftRecord(d', after + [failed], |before| - 1, plan)
  {
    var saves := after + [failed];
    assert saves[|saves| - 1] == failed && saves[|saves| - 2] == after[|after| - 1];
    if NoSwitch(before, after, d, plan) {
      assert !IsSwitch(before[|before| - 1].state, plan);
    }
  }

  predicate HeldVolume(w: World, held: World, v: string) {
    v in held.volumes ==> v in w.volumes && w.volumes[v] == held.volumes[v]
  }

  /** The original volumes hold what they held in `held`. */
  predicate Held(w: World, held: World, plan: Plan) {
    HeldVolume(w, held, plan.start.volumes.pg) && HeldVolume(w, held, plan.start.volumes.data)
  }

  /** The volumes of a restore are new ones. */
  predicate FreshPlan(held: World, plan: Plan) {
    plan.restoring ==> plan.volumes.pg !in held.volumes && plan.volumes.data !in held.volumes
  }

  /** The installation's station is down, and its database too unless the other side has volumes of its own. */
  predicate Apart(w: World, plan: Plan) {
    && !Running(w.main.station)
    && (if plan.restoring then w.main.postgres.Some? ==> w.main.postgres.value.volume != plan.volumes.pg
        else !Running(w.main.postgres))
  }

  /** Only the installation's own project is left, on the planned volumes. */
  predicate Alone(w: World, plan: Plan) {
    && w.recovery == Project(None, None)
    && (w.main.postgres.Some? ==> w.main.postgres.value.volume == plan.volumes.pg)
    && (w.main.station.Some? ==> w.main.station.value.volume == plan.volumes.data)
  }

  /** No running station of a recovery project can write to the recorded volumes. */
  predicate Calm(w: World) {
    w.disk.Some? ==> !BusyIn(w.recovery, w.disk.value.volumes.pg) && !BusyIn(w.recovery, w.disk.value.volumes.data)
  }

  /** Since when a rollback is watched, the world right after its first step, whether before it no volume was mounted
      by two running databases, whether no recovery station could write to the recorded volumes, and what a power
      loss could leave of the record then. */
  datatype Watch = Watch(since: nat, held: World, single: bool, calm: bool, found: set<Option<State>>)

  ghost function WatchFrom(trace: seq<World>, n: nat, before: World): Watch
    requires n < |trace|
  {
    Watch(n, At(trace, n), !DoubleMount(before), Calm(before), before.found)
  }

  /** What holds at every moment of a rollback. */
  ghost predicate Safe(w: World, watch: Watch, plan: Plan) {
    && Recorded(w, plan)
    && (watch.single ==> !DoubleMount(w))
    && (watch.calm && plan.restoring ==> Held(w, watch.held, plan))
    && FoundSince(w.found, watch.found, plan)
  }

  /** A power loss leaves nothing that it could not have left before, except records as they should be. */
  ghost predicate FoundSince(now: set<Option<State>>, before: set<Option<State>>, plan: Plan) {
    forall d | d in now :: d in before || RecordedState(d, plan)
  }

  /** No running station can write to the volume `v`, if it was there in `held`. */
  predicate CalmAt(w: World, held: World, v: string) {
    v in held.volumes ==> !Busy(w, v)
  }

  /** What every step of a rollback keeps of the containers. */
  predicate Kept(w: World, watch: Watch, plan: Plan) {
    && (watch.single ==> !DoubleMount(w))
    && (watch.calm && plan.restoring ==>
          CalmAt(w, watch.held, plan.start.volumes.pg) && CalmAt(w, watch.held, plan.start.volumes.data))
  }

  ghost predicate SafeSince(trace: seq<World>, watch: Watch, plan: Plan) {
    forall i: nat | watch.since <= i < |trace| :: Safe(At(trace, i), watch, plan)
  }

  /** A step writes to no volume but those of a restore. */
  ghost predicate QuietFor(w: World, w': World, plan: Plan) {
    || Quiet(w, w')
    || (plan.restoring && Quiet(w.(volumes := w.volumes - {plan.volumes.pg}), w'))
    || (plan.restoring && Quiet(w.(volumes := w.volumes - {plan.volumes.data}), w'))
  }

  lemma KeptIsSafe(w: World, w': World, watch: Watch, plan: Plan)
    requires Safe(w, watch, plan) && Recorded(w', plan) && FreshPlan(watch.held, plan)
    requires Kept(w', watch, plan) && FoundSince(w'.found, w.found, plan)
    requires w.volumes.Keys <= w'.volumes.Keys && QuietFor(w, w', plan)
    ensures Safe(w', watch, plan)
  {
  }

  /** One more step: it is enough to look at the last two worlds. */
  lemma SafeStep(before: seq<World>, w: World, after: seq<World>, w': World, watch: Watch, plan: Plan)
    requires watch.since < |before| && SafeSince(before, watch, plan) && w == At(before, |before| - 1)
    requires |after| == |before| + 1 && Continues(before, after) && w' == At(after, |before|)
    requires FreshPlan(watch.held, plan) && Recorded(w', plan) && Kept(w', watch, plan)
    requires FoundSince(w'.found, w.found, plan)
    requires w.volumes.Keys <= w'.volumes.Keys && QuietFor(w, w', plan)
    ensures SafeSince(after, watch, plan)
  {
    assert Safe(At(before, |before| - 1), watch, plan);
    KeptIsSafe(w, w', watch, plan);
    forall i: nat | watch.since <= i < |after| ensures Safe(At(after, i), watch, plan) {
      if i < |before| {
        assert At(after, i) == At(before, i);
      }
    }
  }

  /** The moment before a watched rollback on the same volumes counts as well. */
  lemma SafeFromBefore(before: seq<World>, after: seq<World>, w: World, w': World, plan: Plan)
    requires 0 < |before| < |after| && Continues(before, after) && !plan.restoring
    requires SafeSince(before, WatchFrom(before, |before| - 1, w), plan)
    requires SafeSince(after, WatchFrom(after, |before|, w'), plan)
    requires SameContainers(w, w') && w'.found == w.found
    ensures SafeSince(after, WatchFrom(after, |before| - 1, w), plan)
  {
    var first, later := WatchFrom(after, |before| - 1, w), WatchFrom(after, |before|, w');
    assert At(after, |before| - 1) == At(before, |before| - 1);
    assert Safe(At(before, |before| - 1), first, plan);
    forall i: nat | first.since <= i < |after| ensures Safe(At(after, i), first, plan) {
      if i == |before| - 1 {
        assert At(after, i) == At(before, i);
      } else {
        assert Safe(At(after, i), later, plan);
      }
    }
  }

  /** The first watched moment of a rollback. */
  lemma SafeAtStart(trace: seq<World>, before: World, plan: Plan)
    requires |trace| > 0 && before.disk == Some(plan.start)
    requires var w := At(trace, |trace| - 1);
             && w.disk == before.disk && w.found == before.found && w.recovery == before.recovery
             && w.main.postgres == before.main.postgres
    ensures SafeSince(trace, WatchFrom(trace, |trace| - 1, before), plan)
  {
    var watch := WatchFrom(trace, |trace| - 1, before);
    assert Safe(At(trace, |trace| - 1), watch, plan);
  }

  /** Once the beginning is recorded without an error, a power loss leaves only records as they should be.  So what
      is watched from then on may be watched without what could be found before. */
  function Strictly(watch: Watch, since: nat): Watch {
    watch.(since := since, found := {})
  }

  /** From moment `n` on, whatever a power loss would leave is a record as it should be. */
  ghost predicate FoundRecordedFrom(trace: seq<World>, n: nat, plan: Plan) {
    forall i: nat | n <= i < |trace| :: FoundRecorded(At(trace, i), plan)
  }

  lemma SafeFurther(before: seq<World>, after: seq<World>, watch: Watch, n: nat, plan: Plan)
    requires watch.since <= n < |before| && Continues(before, after)
    requires SafeSince(before, watch, plan) && SafeSince(after, Strictly(watch, n), plan)
    ensures SafeSince(after, watch, plan) && FoundRecordedFrom(after, n, plan)
  {
    forall i: nat | watch.since <= i < |after| ensures Safe(At(after, i), watch, plan) {
      if i < n {
        assert At(after, i) == At(before, i);
      } else {
        assert Safe(At(after, i), Strictly(watch, n), plan);
      }
    }
    forall i: nat | n <= i < |after| ensures FoundRecorded(At(after, i), plan) {
      assert Safe(At(after, i), Strictly(watch, n), plan);
    }
  }

  /** Step `n` found the same volumes and recovery project as `before`, and what running stations wrote. */
  ghost predicate WrittenAt(before: World, trace: seq<World>, script: nat -> Outcome, n: nat) {
    && n < |trace|
    && var w := At(trace, n);
       w.volumes.Keys == before.volumes.Keys && w.recovery == before.recovery && NoiseIn(before, w, script(n).noise)
  }

  /** The first two moments of a restore that begins with step `n`: the station is stopped, and the beginning is
      recorded. */
  ghost predicate FirstMoments(before: World, trace: seq<World>, script: nat -> Outcome, n: nat) {
    && WrittenAt(before, trace, script, n)
    && (!script(n).raises ==>
          && !Running(At(trace, n).main.station)
          && WrittenAt(At(trace, n), trace, script, n + 1) && SameContainers(At(trace, n), At(trace, n + 1)))
  }

  /** A rollback that began with step `n`, in the world `before`, is safe so far. */
  ghost predicate Course(before: World, trace: seq<World>, script: nat -> Outcome, n: nat, plan: Plan) {
    && n < |trace| && SafeSince(trace, WatchFrom(trace, n, before), plan)
    && (plan.restoring ==> FirstMoments(before, trace, script, n))
  }

  lemma CourseGoesOn(
    before: World, trace: seq<World>, longer: seq<World>, script: nat -> Outcome, n: nat, m: nat, plan: Plan)
    requires Course(before, trace, script, n, plan) && Continues(trace, longer) && n <= m < |trace|
    requires SafeSince(longer, Strictly(WatchFrom(trace, n, before), m), plan)
    ensures Course(before, longer, script, n, plan) && FoundRecordedFrom(longer, m, plan)
    ensures WatchFrom(longer, n, before) == WatchFrom(trace, n, before)
  {
    assert At(longer, n) == At(trace, n);
    SafeFurther(trace, longer, WatchFrom(trace, n, before), m, plan);
    if plan.restoring {
      FirstMomentsStay(before, trace, longer, script, n);
    }
  }

  lemma TwoMoments(
    before: World, first: seq<World>, w: World, second: seq<World>, w': World, script: nat -> Outcome, n: nat)
    requires |first| == n + 1 && w == At(first, n) && WrittenAt(before, first, script, n)
    requires |second| == n + 2 && w' == At(second, n + 1) && Continues(first, second)
    requires !Running(w.main.station) && SameContainers(w, w') && w'.volumes.Keys == w.volumes.Keys
    requires NoiseIn(w, w', script(n + 1).noise)
    ensures FirstMoments(before, second, script, n)
  {
    assert At(second, n) == At(first, n);
  }

  lemma FirstMomentsStay(before: World, trace: seq<World>, longer: seq<World>, script: nat -> Outcome, n: nat)
    requires FirstMoments(before, trace, script, n) && Continues(trace, longer)
    ensures FirstMoments(before, longer, script, n)
  {
    assert At(longer, n) == At(trace, n);
    assert n + 1 < |trace| ==> At(longer, n + 1) == At(trace, n + 1);
  }

  /** `Calm` is the exact condition for a restore to leave the original volumes alone: to one that a recovery station
      can write to before the restore, it does write what it likes right after the installation's own was stopped. */
  lemma RestoreIsWrittenTo(before: World, trace: seq<World>, script: nat -> Outcome, n: nat, v: string)
    requires FirstMoments(before, trace, script, n) && !script(n).raises && v in before.volumes
    ensures v in At(trace, n).volumes && v in At(trace, n + 1).volumes
    ensures At(trace, n + 1).volumes[v] ==
              if BusyIn(before.recovery, v) && v in script(n + 1).noise then script(n + 1).noise[v]
              else At(trace, n).volumes[v]
    ensures BusyIn(before.recovery, v) && v in script(n).noise ==> At(trace, n).volumes[v] == script(n).noise[v]
  {
    assert Busy(At(trace, n), v) <==> BusyIn(before.recovery, v);
    assert Busy(At(trace, n + 1), v) <==> BusyIn(before.recovery, v);
  }

  /** The lines a `.env` gets besides the managed ones. */
  function Keeping(original: Option<Env>, generated: Option<seq<string>>): Option<seq<string>> {
    if original.Some? then Some(original.value.kept) else generated
  }

  /** The first part of `write_environment`: the lines to preserve, or newly generated ones. */
  method LinesToKeep(original: Option<Env>, generated: Option<seq<string>>, root: string)
    returns (r: Option<seq<string>>)
    requires OneLine(root) && (original.Some? ==> EnvInv(original.value))
    ensures r == Keeping(original, generated)
  {
    if original.Some? {
      StoredEnvReadsBack(original.value, root);
      var preserved := Environment.PreserveLines(SplitLines(EnvText(original.value, root)));
      if preserved != [] {
        return Some(preserved);
      }
    }
    return generated;
  }

  /** `w'` has one backup more than `w`, of the release and environment that `w` had, and is otherwise ready
      to go on. */
  predicate BackedUpFrom(w: World, w': World, dir: nat) {
    && w.disk.Some? && w.env.Some? && w'.recovery == w.recovery && w'.volumes.Keys == w.volumes.Keys
    && w'.backups == w.backups[dir := Backup(w.disk.value.release, w.env.value)]
  }

  lemma BackedUpStays(w: World, w': World, w'': World, dir: nat)
    requires BackedUpFrom(w, w', dir)
    requires w''.backups == w'.backups && w''.recovery == w'.recovery && w''.volumes.Keys == w'.volumes.Keys
    ensures BackedUpFrom(w, w'', dir)
  {
  }

  /** The two checks of `upgrade` on versions: the major versions as text, and the order. */
  method MayUpgrade(prior: Release, release: Release) returns (allowed: bool)
    requires ValidRelease(prior) && ValidRelease(release)
    ensures allowed <==> Upgrades(prior, release)
  {
    MajorAsText(prior.tag, release.tag);
    allowed := && Cut(Written(prior.tag), '.').0 == Cut(Written(release.tag), '.').0
               && KeyLess(KeyOf(prior.tag), KeyOf(release.tag));
  }

  // ---------------------------------------------------------------------------
  // When HEALTHY is left recorded without its station
  // ---------------------------------------------------------------------------

  /** What a rollback stops from step `n` on is stopped without an error. */
  predicate StopsGoWell(script: nat -> Outcome, n: nat, restoring: bool) {
    !script(n).raises && (restoring || !script(n + 1).raises)
  }

  /** A rollback that begins at step `n` ends before its beginning is recorded. */
  predicate NotBegun(script: nat -> Outcome, n: nat, restoring: bool) {
    !StopsGoWell(script, n, restoring) || !Took(script(if restoring then n + 1 else n + 2))
  }

  /** Neither its beginning is recorded nor, by the handler, its failure. */
  predicate NeverRecorded(script: nat -> Outcome, n: nat, restoring: bool) {
    && NotBegun(script, n, restoring)
    && (StopsGoWell(script, n, restoring) ==> !Took(script(if restoring then n + 2 else n + 3)))
  }

  /** The checks of `rollback` that only read. */
  predicate Targeted(w: World, args: Args) {
    && w.disk.Some? && w.disk.value.previous.Some? && w.disk.value.readback.Some?
    && args.target == Some(w.disk.value.previous.value.tag)
    && (if args.restore.Some? then args.confirmLoss else args.compatible)
    && var chosen := if args.restore.Some? then args.restore else w.disk.value.backup;
       chosen.Some? && chosen.value in w.backups && w.backups[chosen.value].release == w.disk.value.previous.value
  }

  /** New names for the volumes of a restore. */
  predicate NewVolumes(w: World, volumes: Volumes) {
    && w.disk.Some? && ValidVolumes(volumes) && volumes.pg !in w.volumes && volumes.data !in w.volumes
    && volumes.pg != w.disk.value.volumes.pg && volumes.data != w.disk.value.volumes.data
  }

  /** `rollback`, from step `n` on, gets as far as touching anything. */
  predicate SetsOut(w: World, script: nat -> Outcome, n: nat, args: Args) {
    Targeted(w, args) && if args.restore.Some? then NewVolumes(w, script(n).volumes) else !script(n).raises
  }

  /** The step in which a rollback stops the station: without new volumes it looks at the schema first. */
  function StopAt(n: nat, args: Args): nat {
    if args.restore.Some? then n else n + 1
  }

  predicate Removable(w: World, volume: string) {
    volume in w.volumes && !Mounts(w.recovery, volume)
  }

  /** Both volumes are removed, in steps `n` and `n + 1`, once the installation's containers are gone. */
  predicate Removes(w: World, script: nat -> Outcome, n: nat) {
    && w.disk.Some? && !script(n).raises && !script(n + 1).raises
    && var v := w.disk.value.volumes; v.pg != v.data && Removable(w, v.pg) && Removable(w, v.data)
  }

  /** `uninstall`, from step `n` on, does not get as far as replacing the record. */
  predicate NotRemoved(w: World, script: nat -> Outcome, n: nat, purge: bool) {
    || script(n).raises
    || (purge && !Removes(w, script, n + 1))
    || !Took(script(if purge then n + 3 else n + 1))
  }

  /** The operation, from step `n` on, takes the installation's station away. */
  predicate LosesStation(w: World, script: nat -> Outcome, n: nat, operation: Operation, args: Args) {
    match operation
    case Uninstall => (args.purge ==> args.confirmPurge) && (Took(script(n)) || script(n).stationGone)
    case Rollback => SetsOut(w, script, n, args) && Took(script(StopAt(n, args)))
    case _ => false
  }

  /** An operation on an installation that is recorded HEALTHY never replaces that record. */
  predicate KeepsRecord(w: World, script: nat -> Outcome, n: nat, operation: Operation, args: Args)
    requires HealthyRecord(w.disk) && ValidRelease(w.disk.value.release)
    requires args.asset.Some? ==> ValidRelease(args.asset.value)
  {
    match operation
    case Install => true
    case MakeBackup => !Took(script(n))
    case Upgrade => args.asset.None? || !Upgrades(w.disk.value.release, args.asset.value) || !Took(script(n))
    case Rollback =>
      !SetsOut(w, script, n, args) || NeverRecorded(script, StopAt(n, args), args.restore.Some?)
    case Uninstall => (args.purge && !args.confirmPurge) || NotRemoved(w, script, n, args.purge)
  }

  /** The operation leaves HEALTHY recorded without the station: it was so, or this takes the station away, and
      no save replaces the record. */
  predicate LeavesAdrift(w: World, script: nat -> Outcome, n: nat, operation: Operation, args: Args)
    requires HealthyRecord(w.disk) ==> ValidRelease(w.disk.value.release)
    requires args.asset.Some? ==> ValidRelease(args.asset.value)
  {
    && HealthyRecord(w.disk) && (Adrift(w) || LosesStation(w, script, n, operation, args))
    && KeepsRecord(w, script, n, operation, args)
  }

  /** A rollback that stops the station in step `n`, if it sets out at all, leaves HEALTHY recorded without the
      station, before the handler does anything. */
  predicate Stranded(w: World, script: nat -> Outcome, n: nat, sets: bool, restoring: bool) {
    && HealthyRecord(w.disk) && (Adrift(w) || (sets && Took(script(n))))
    && (sets ==> NotBegun(script, n, restoring))
  }

  /** If so, the handler records FAILED. */
  predicate FailureDue(script: nat -> Outcome, n: nat, sets: bool, restoring: bool) {
    sets && StopsGoWell(script, n, restoring) && Took(script(if restoring then n + 2 else n + 3))
  }

  lemma HandlerDecides(w: World, script: nat -> Outcome, n: nat, args: Args)
    requires HealthyRecord(w.disk) ==> ValidRelease(w.disk.value.release)
    requires args.asset.Some? ==> ValidRelease(args.asset.value)
    ensures var at, sets, restoring := StopAt(n, args), SetsOut(w, script, n, args), args.restore.Some?;
            LeavesAdrift(w, script, n, Rollback, args) <==>
            Stranded(w, script, at, sets, restoring) && !FailureDue(script, at, sets, restoring)
  {
  }

  /** The installer's object.  `script` is what happens at every step, numbered by the length of `trace`:
      whatever holds for every script holds for every run. */
  class Installation {
    const root: string
    const project: string
    const script: nat -> Outcome
    var world: World
    var mem: Option<State>
    var inRecovery: bool
    var trace: seq<World>  // every moment so far, kept only to be reasoned about
    var saves: seq<Saved>  // every save so far, likewise

    ghost predicate Valid()
      reads this
    {
      && GoodTrace(trace) && At(trace, |trace| - 1) == world && WorldInv(world)
      && OneLine(root) && OneLine(project)
      && (mem.Some? ==> StateInv(mem.value) && ReleaseStep(world.disk, mem.value))
    }

    constructor (root: string, project: string, script: nat -> Outcome)
      requires OneLine(root) && OneLine(project)
      ensures Valid() && mem.None? && !inRecovery && |trace| == 1 && saves == []
      ensures world == World(None, {None}, None, false, [], map[], Project(None, None), Project(None, None), map[])
      ensures this.root == root && this.project == project && this.script == script
    {
      this.root, this.project, this.script := root, project, script;
      var nothing := Project(None, None);
      var empty := World(None, {None}, None, false, [], map[], nothing, nothing, map[]);
      world, mem, inRecovery := empty, None, false;
      trace, saves := [empty], [];
    }

    // -------------------------------------------------------------------------
    // External steps
    // -------------------------------------------------------------------------

    /** What happens at the step that comes next. */
    function Now(): Outcome
      reads this
    {
      script(|trace|)
    }

    /** The world moves on to `next`; meanwhile running stations have written to their volumes. */
    method Advance(next: World)
      requires Valid() && WorldInv(next) && StepInv(world, next)
      requires mem.Some? ==> ReleaseStep(next.disk, mem.value)
      modifies this`world, this`trace
      ensures Valid() && |trace| == old(|trace|) + 1 && Continues(old(trace), trace)
      ensures SameRecords(next, world) && SameContainers(next, world) && world.composeFile == next.composeFile
      ensures world.volumes.Keys == next.volumes.Keys && Quiet(next, world)
      ensures NoiseIn(next, world, old(Now()).noise)
    {
      NoisyKeeps(next, Now().noise);
      world := Noisy(next, Now().noise);
      TraceExtends(trace, next, world);
      trace := trace + [world];
    }

    /** `save`: the record in memory is replaced first, then the file, with the outcomes of `atomic_json`. */
    method Save(s: State) returns (ok: bool)
      requires Valid() && StateInv(s) && ReleaseStep(world.disk, s)
      requires s.phase.Healthy? ==> Serves(world.main, s.release)
      modifies this`world, this`trace, this`mem, this`saves
      ensures Valid() && |trace| == old(|trace|) + 1 && Continues(old(trace), trace) && mem == Some(s)
      ensures ok == !old(Now()).raises
      ensures saves == old(saves) + [Saved(s, Took(old(Now())), !ok)]
      ensures world.disk == if Took(old(Now())) then Some(s) else old(world.disk)
      ensures world.found == AtomicFile.FoundAfter(old(world.found), s, Took(old(Now())), ok)
      ensures SameRecords(old(world).(disk := world.disk, found := world.found), world)
      ensures SameContainers(old(world), world)
      ensures world.volumes.Keys == old(world).volumes.Keys && Quiet(old(world), world)
      ensures NoiseIn(old(world), world, old(Now()).noise)
    {
      var o := Now();
      ok := !o.raises;
      mem, saves := Some(s), saves + [Saved(s, Took(o), o.raises)];
      var found := AtomicFile.FoundAfter(world.found, s, Took(o), ok);
      Advance(if Took(o) then world.(disk := Some(s), found := found) else world);
    }

    /** A step that changes nothing the installer relies on: pulls, dumps, queries, and copies, of which
        one puts `docker-compose.yml` there. */
    method External(copies: bool) returns (ok: bool)
      requires Valid()
      modifies this`world, this`trace
      ensures Valid() && |trace| == old(|trace|) + 1 && Continues(old(trace), trace)
      ensures ok == !old(Now()).raises
      ensures SameRecords(old(world), world) && SameContainers(old(world), world)
      ensures world.volumes.Keys == old(world).volumes.Keys && Quiet(old(world), world)
    {
      ok := !Now().raises;
      Advance(world.(composeFile := world.composeFile || (copies && Took(Now()))));
    }

    /** `healthy`: polls the station's port, which at most one running station can hold. */
    method CheckHealth(release: Release) returns (ok: bool)
      requires Valid()
      modifies this`world, this`trace
      ensures Valid() && |trace| == old(|trace|) + 1 && Continues(old(trace), trace)
      ensures ok <==> !old(Now()).raises && Answers(world, release)
      ensures SameRecords(old(world), world) && SameContainers(old(world), world)
      ensures world.volumes.Keys == old(world).volumes.Keys && Quiet(old(world), world)
    {
      ok := External(false);
      ok := ok && Answers(world, release);
    }

    function Current(): Project
      reads this
    {
      ProjectOf(world, inRecovery)
    }

    function Other(): Project
      reads this
    {
      ProjectOf(world, !inRecovery)
    }

    /** The containers of the current project become those of `p`. */
    method MoveTo(p: Project)
      requires Valid() && MountsIn(p, world.volumes) && MayRun(world, inRecovery, p.station)
      modifies this`world, this`trace
      ensures Valid() && |trace| == old(|trace|) + 1 && Continues(old(trace), trace)
      ensures SameRecords(old(world), world) && Other() == old(Other()) && Current() == p
      ensures world.volumes.Keys == old(world).volumes.Keys && Quiet(old(world), world)
      ensures NoiseIn(old(world), world, old(Now()).noise)
    {
      ProjectMoves(world, inRecovery, p);
      Advance(WithProject(world, inRecovery, p));
    }

    /** `docker compose stop station` and `stop postgres`. */
    method ComposeStop(postgres: bool) returns (ok: bool)
      requires Valid()
      modifies this`world, this`trace
      ensures Valid() && |trace| == old(|trace|) + 1 && Continues(old(trace), trace)
      ensures ok == !old(Now()).raises
      ensures SameRecords(old(world), world) && Other() == old(Other())
      ensures world.volumes.Keys == old(world).volumes.Keys && Quiet(old(world), world)
      ensures NoiseIn(old(world), world, old(Now()).noise)
      ensures Current() == if !Took(old(Now())) then old(Current())
                           else if postgres then old(Current()).(postgres := Halted(old(Current()).postgres))
                           else old(Current()).(station := Halted(old(Current()).station))
    {
      var p := Current();
      ok := !Now().raises;
      if Took(Now()) {
        p := if postgres then p.(postgres := Halted(p.postgres)) else p.(station := Halted(p.station));
      }
      MoveTo(p);
    }

    /** `docker compose down`: a failure may have removed some of the containers. */
    method ComposeDown() returns (ok: bool)
      requires Valid()
      modifies this`world, this`trace
      ensures Valid() && |trace| == old(|trace|) + 1 && Continues(old(trace), trace)
      ensures ok == !old(Now()).raises
      ensures SameRecords(old(world), world) && Other() == old(Other())
      ensures world.volumes.Keys == old(world).volumes.Keys && Quiet(old(world), world)
      ensures Weakened(old(Current()).postgres, Current().postgres)
      ensures Current().station == if Took(old(Now())) || old(Now()).stationGone then None else old(Current()).station
      ensures Took(old(Now())) ==> Current() == Project(None, None)
    {
      var p, o := Current(), Now();
      ok := !o.raises;
      MoveTo(Project(if Took(o) || o.pgGone then None else p.postgres,
                     if Took(o) || o.stationGone then None else p.station));
    }

    /** `docker compose start station`: it takes the port, so the other project's must be down. */
    method ComposeStart() returns (ok: bool)
      requires Valid() && !inRecovery
      modifies this`world, this`trace
      ensures Valid() && |trace| == old(|trace|) + 1 && Continues(old(trace), trace)
      ensures ok <==> !old(Now()).raises && old(world).main.station.Some? && !Running(old(world).recovery.station)
      ensures SameRecords(old(world), world) && world.recovery == old(world).recovery
      ensures world.volumes.Keys == old(world).volumes.Keys && Quiet(old(world), world)
      ensures world.main.postgres == old(world).main.postgres
      ensures ok ==> world.main.station == Some(old(world).main.station.value.(running := true))
      ensures Adrift(world) ==> old(Adrift(world))
    {
      var p := world.main;
      var possible := p.station.Some? && !Running(world.recovery.station);
      ok := !Now().raises && possible;
      if Took(Now()) && possible {
        p := p.(station := Some(p.station.value.(running := true)));
      }
      MoveTo(p);
    }

    function CurrentEnv(): Option<Env>
      reads this
    {
      if !inRecovery then world.env
      else if world.recoveryEnvs == [] then None
      else Some(world.recoveryEnvs[|world.recoveryEnvs| - 1])
    }

    predicate CanStart(withStation: bool)
      reads this
    {
      MayStart(Other(), CurrentEnv(), world.volumes, withStation)
    }

    /** `docker compose up -d`, of PostgreSQL alone or with the station.  A failure may have started
        or removed either; a started container mounts what the project's `.env` says. */
    method ComposeUp(withStation: bool) returns (ok: bool)
      requires Valid()
      requires inRecovery && withStation ==> NoneHealthy(world)
      modifies this`world, this`trace
      ensures Valid() && |trace| == old(|trace|) + 1 && Continues(old(trace), trace)
      ensures ok <==> !old(Now()).raises && old(CanStart(withStation))
      ensures SameRecords(old(world), world) && Other() == old(Other())
      ensures world.volumes.Keys == old(world).volumes.Keys && Quiet(old(world), world)
      ensures StartsFrom(old(Current()), CurrentEnv(), withStation, Current())
      ensures ok ==> IsUp(Current(), CurrentEnv(), old(Now()).identity, withStation)
    {
      var o := Now();
      ok := !o.raises && CanStart(withStation);
      var p := Started(Current(), Other(), CurrentEnv(), world.volumes, o, withStation);
      StartedMeans(Current(), Other(), CurrentEnv(), world.volumes, o, withStation);
      MoveTo(p);
    }

    /** `volume`: finds the volume or creates it. */
    method EnsureVolume(name: string) returns (ok: bool)
      requires Valid()
      modifies this`world, this`trace
      ensures Valid() && |trace| == old(|trace|) + 1 && Continues(old(trace), trace)
      ensures ok == !old(Now()).raises
      ensures SameRecords(old(world), world) && SameContainers(old(world), world)
      ensures old(world).volumes.Keys <= world.volumes.Keys <= old(world).volumes.Keys + {name}
      ensures Quiet(old(world), world)
      ensures ok ==> name in world.volumes
    {
      ok := !Now().raises;
      Advance(if Took(Now()) && name !in world.volumes then world.(volumes := world.volumes[name := 0]) else world);
    }

    /** Unpacking an archive into a volume, or restoring a dump through the project's database. */
    method Fill(volume: string) returns (ok: bool)
      requires Valid()
      modifies this`world, this`trace
      ensures Valid() && |trace| == old(|trace|) + 1 && Continues(old(trace), trace)
      ensures ok <==> !old(Now()).raises && volume in old(world).volumes
      ensures SameRecords(old(world), world) && SameContainers(old(world), world)
      ensures world.volumes.Keys == old(world).volumes.Keys
      ensures Quiet(old(world).(volumes := old(world).volumes - {volume}), world)
    {
      ok := !Now().raises && volume in world.volumes;
      Advance(if volume in world.volumes then world.(volumes := world.volumes[volume := Now().number]) else world);
    }

    /** `docker volume rm`, which Docker refuses for a volume that a container mounts. */
    method RemoveVolume(name: string) returns (ok: bool)
      requires Valid()
      modifies this`world, this`trace
      ensures Valid() && |trace| == old(|trace|) + 1 && Continues(old(trace), trace)
      ensures SameRecords(old(world), world) && SameContainers(old(world), world)
      ensures ok <==> && !old(Now()).raises && name in old(world).volumes
                      && !Mounts(old(world).main, name) && !Mounts(old(world).recovery, name)
      ensures ok ==> world.volumes.Keys == old(world).volumes.Keys - {name}
    {
      var next := world.(volumes := world.volumes - {name});
      var possible := && name in world.volumes
                      && MountsIn(world.main, next.volumes) && MountsIn(world.recovery, next.volumes);
      ok := !Now().raises && possible;
      Advance(if Took(Now()) && possible then next else world);
    }

    /** `write_environment` into the installation or the recovery directory.  The file is replaced
        atomically, and the failure may be on either side of the replacement. */
    method WriteEnvironment(release: Release, volumes: Volumes, original: Option<Env>, generated: Option<seq<string>>)
      returns (ok: bool)
      requires Valid() && ValidRelease(release) && ValidVolumes(volumes)
      requires GeneratedLines(generated)
      requires original.Some? ==>
                 EnvInv(original.value) && world.env.Some? && original.value.kept == world.env.value.kept
      requires inRecovery ==> original.Some?
      requires original.None? ==> world.env.None?
      modifies this`world, this`trace
      ensures Valid() && |trace| == old(|trace|) + 1 && Continues(old(trace), trace)
      ensures var kept := Keeping(original, generated);
              && (ok <==> !old(Now()).raises && kept.Some? && Acceptable(kept.value, release, volumes, root))
              && (ok ==> CurrentEnv() == Some(Env(kept.value, release.image, volumes)))
      ensures world.disk == old(world.disk) && world.found == old(world.found) && world.backups == old(world.backups)
      ensures SameContainers(old(world), world) && (inRecovery ==> world.env == old(world.env))
      ensures !inRecovery ==> world.recoveryEnvs == old(world.recoveryEnvs)
      ensures original.Some? ==> world.env.Some? && world.env.value.kept == original.value.kept
      ensures world.volumes.Keys == old(world).volumes.Keys && Quiet(old(world), world)
    {
      var o := Now();
      var preserved := LinesToKeep(original, generated, root);
      if preserved.None? {
        ok := false;
        Advance(world);
        return;
      }
      var accepted := Acceptable(preserved.value, release, volumes, root);
      ok := !o.raises && accepted;
      if accepted && Took(o) {
        var e := Env(preserved.value, release.image, volumes);
        EnvWritten(world, inRecovery, e);
        Advance(WithEnv(world, inRecovery, e));
      } else {
        Advance(world);
      }
    }

    /** Copying the state of the installation out, and sealing it with a manifest. */
    method SealBackup() returns (ok: bool, dir: nat)
      requires Valid() && mem.Some?
      modifies this`world, this`trace
      ensures Valid() && |trace| == old(|trace|) + 1 && Continues(old(trace), trace)
      ensures dir == old(Now()).dir
      ensures ok <==> !old(Now()).raises && old(world).env.Some? && dir !in old(world).backups
      ensures world.disk == old(world.disk) && world.found == old(world.found) && world.env == old(world.env)
      ensures SameContainers(old(world), world) && world.recoveryEnvs == old(world.recoveryEnvs)
      ensures world.volumes.Keys == old(world).volumes.Keys
      ensures ok ==> world.backups == old(world.backups)[dir := Backup(mem.value.release, world.env.value)]
    {
      var o := Now();
      dir := o.dir;
      var possible := world.env.Some? && dir !in world.backups;
      ok := !o.raises && possible;
      if Took(o) && possible {
        BackupSealed(world, dir, mem.value.release);
        Advance(world.(backups := world.backups[dir := Backup(mem.value.release, world.env.value)]));
      } else {
        Advance(world);
      }
    }

    // -------------------------------------------------------------------------
    // Operations
    // -------------------------------------------------------------------------

    /** What bringing the installation up on a release needs besides steps that go well. */
    predicate CanLaunch(release: Release, volumes: Volumes, generated: Option<seq<string>>)
      reads this
    {
      var kept := Keeping(world.env, generated);
      && kept.Some? && Acceptable(kept.value, release, volumes, root)
      && volumes.pg in world.volumes && volumes.data in world.volumes && !Running(world.recovery.station)
    }

    /** Binds the installation to a release and brings it up: `.env`, compose file, images, containers,
        health and schema. */
    method Launch(release: Release, volumes: Volumes, generated: Option<seq<string>>) returns (ok: bool)
      requires Valid() && !inRecovery && ValidRelease(release) && ValidVolumes(volumes) && GeneratedLines(generated)
      modifies this`world, this`trace
      ensures Valid() && Continues(old(trace), trace)
      ensures world.disk == old(world.disk) && world.found == old(world.found)
      ensures world.backups == old(world.backups) && world.recovery == old(world.recovery)
      ensures world.volumes.Keys == old(world).volumes.Keys
      ensures ok ==> Serves(world.main, release) && |trace| == old(|trace|) + 6
      ensures ok ==> var kept := Keeping(old(world.env), generated);
                     kept.Some? && world.env == Some(Env(kept.value, release.image, volumes))
      ensures Smooth(script, release, old(|trace|), 6) && old(CanLaunch(release, volumes, generated)) ==> ok
    {
      ok := WriteEnvironment(release, volumes, world.env, generated);
      if ok { ok := BringUp(release); }
    }

    /** The part of `Launch` after the environment is written. */
    method BringUp(release: Release) returns (ok: bool)
      requires Valid() && !inRecovery
      modifies this`world, this`trace
      ensures Valid() && Continues(old(trace), trace) && SameRecords(old(world), world)
      ensures world.recovery == old(world.recovery) && world.volumes.Keys == old(world).volumes.Keys
      ensures ok ==> Serves(world.main, release) && |trace| == old(|trace|) + 5
      ensures Smooth(script, release, old(|trace|), 5) && old(CanStart(true)) ==> ok
    {
      ok := External(true);  // copy docker-compose.yml
      if ok { ok := External(false); }  // pull
      if ok { ok := StartAndProbe(release); }
    }

    /** Containers, health and schema. */
    method StartAndProbe(release: Release) returns (ok: bool)
      requires Valid() && !inRecovery
      modifies this`world, this`trace
      ensures Valid() && Continues(old(trace), trace) && SameRecords(old(world), world)
      ensures world.recovery == old(world.recovery) && world.volumes.Keys == old(world).volumes.Keys
      ensures ok ==> Serves(world.main, release) && |trace| == old(|trace|) + 3
      ensures Smooth(script, release, old(|trace|), 3) && old(CanStart(true)) ==> ok
    {
      ok := ComposeUp(true);
      if ok { ok := CheckHealth(release); }
      if ok { ok := External(false); }  // schema
    }

    /** Starts the stopped station again and records HEALTHY. */
    method Restart() returns (ok: bool)
      requires Valid() && mem.Some? && !inRecovery
      modifies this`world, this`trace, this`mem, this`saves
      ensures Valid() && Continues(old(trace), trace) && mem.Some? && world.backups == old(world.backups)
      ensures mem.value == old(mem).value.(phase := mem.value.phase)
      ensures mem.value.phase == old(mem).value.phase || mem.value.phase.Healthy?
      ensures ok ==> mem.value.phase.Healthy? && world.disk == mem && Serves(world.main, mem.value.release)
      ensures Adrift(world) ==> old(Adrift(world))
    {
      ok := ComposeStart();
      if ok { ok := CheckHealth(mem.value.release); }
      if ok { ok := Save(mem.value.(phase := Healthy)); }
    }

    /** `resume_current`: back to HEALTHY if the station comes up again, otherwise FAILED. */
    method ResumeCurrent()
      requires Valid() && mem.Some? && !inRecovery
      modifies this`world, this`trace, this`mem, this`saves
      ensures Valid() && Continues(old(trace), trace) && mem.Some?
      ensures mem.value == old(mem).value.(phase := mem.value.phase)
      ensures mem.value.phase.Healthy? ==> world.disk == mem && Serves(world.main, mem.value.release)
      ensures mem.value.phase.Healthy? || mem.value.phase.Failed?
      ensures Adrift(world) ==> old(Adrift(world))
    {
      var ok := Restart();
      if !ok {
        var recorded := Save(mem.value.(phase := Failed));
      }
    }

    /** HEALTHY in every respect: recorded for good, running, with the recorded volumes in its environment,
        and nothing of a recovery project running. */
    predicate Up()
      reads this
    {
      && mem.Some? && world.disk == mem && Settled(world) && mem.value.phase.Healthy?
      && Serves(world.main, mem.value.release) && RecoveryIdle(world)
      && world.env.Some? && world.env.value.image == mem.value.release.image
      && world.env.value.volumes == mem.value.volumes
      && mem.value.volumes.pg in world.volumes && mem.value.volumes.data in world.volumes
    }

    /** The part of `install` that brings a stopped installation up again. */
    method StartStopped() returns (ok: bool)
      requires Valid() && mem.Some? && !inRecovery
      modifies this`world, this`trace, this`mem, this`saves
      ensures Valid() && Continues(old(trace), trace)
      ensures mem.Some? && mem.value == old(mem).value.(phase := mem.value.phase)
      ensures ok ==> world.disk == mem && mem.value.phase.Healthy? && Serves(world.main, mem.value.release)
      ensures !HealthyRecord(old(world.disk)) ==> !Adrift(world)
    {
      ok := ComposeUp(true);
      if ok { ok := CheckHealth(mem.value.release); }
      if ok { ok := Save(mem.value.(phase := Healthy)); }
    }

    function FirstVolumes(): Volumes {
      Volumes(project + "-pg", project + "-data")
    }

    /** The record a first installation begins with. */
    function FirstRecord(release: Release): State {
      State(Installing, release, FirstVolumes(), None, None, None, None)
    }

    /** A first installation, with lines for its environment that can be written. */
    predicate CanInstall(args: Args)
      reads this
    {
      && mem.None? && world.env.None? && !world.composeFile && RecoveryIdle(world)
      && args.asset.Some? && args.generated.Some?
      && Acceptable(args.generated.value, args.asset.value, FirstVolumes(), root)
    }

    /** `install`.  A first installation succeeds if its ten steps go well. */
    method DoInstall(args: Args) returns (ok: bool)
      requires Valid() && ValidArgs(args) && mem == world.disk && !inRecovery
      modifies this`world, this`trace, this`mem, this`saves
      ensures Valid() && Continues(old(trace), trace)
      ensures ok ==> mem.Some? && world.disk == mem && args.asset == Some(mem.value.release)
      ensures ok ==> mem.value.phase.Healthy? && Serves(world.main, mem.value.release)
      ensures old(mem).Some? && !old(mem).value.phase.Purged? && mem.Some? ==>
                mem.value == old(mem).value.(phase := mem.value.phase)
      ensures Adrift(world) <==> old(Adrift(world))
      ensures HealthyRecord(old(mem)) ==> mem == old(mem)
      ensures old(CanInstall(args)) && Smooth(script, args.asset.value, old(|trace|), 10) ==>
                && ok && |trace| == old(|trace|) + 10 && Up() && world.env.value.kept == args.generated.value
                && mem.value == FirstRecord(args.asset.value).(phase := Healthy) && world.backups == old(world.backups)
                && world.volumes.Keys == old(world).volumes.Keys + {FirstVolumes().pg, FirstVolumes().data}
    {
      ok := false;
      if args.asset.None? {
        return;
      }
      var release := args.asset.value;
      if mem.Some? && mem.value.phase.Healthy? {
        if mem.value.release == release {
          ok := CheckHealth(release);
        }
        return;
      }
      if mem.Some? && mem.value.phase.Stopped? {
        if mem.value.release == release {
          ok := StartStopped();
        }
        return;
      }
      if mem.None? && (world.env.Some? || world.composeFile) {
        return;
      }
      if mem.None? || mem.value.phase.Purged? {
        mem := Some(FirstRecord(release));
      }
      if mem.value.release != release || mem.value.attempted.Some? {
        return;
      }
      ok := FreshInstall(release, args.generated);
    }

    /** What the ten steps of a fresh installation need besides going well. */
    predicate CanFreshInstall(release: Release, generated: Option<seq<string>>)
      reads this
    {
      var kept := Keeping(world.env, generated);
      && mem.Some? && kept.Some? && Acceptable(kept.value, release, mem.value.volumes, root) && RecoveryIdle(world)
    }

    /** The part of `install` that creates the volumes and the configuration. */
    method FreshInstall(release: Release, generated: Option<seq<string>>) returns (ok: bool)
      requires Valid() && !inRecovery && ValidRelease(release) && GeneratedLines(generated)
      requires mem.Some? && mem.value.release == release
      modifies this`world, this`trace, this`mem, this`saves
      ensures Valid() && Continues(old(trace), trace)
      ensures mem.Some? && mem.value == old(mem).value.(phase := mem.value.phase)
      ensures ok ==> world.disk == mem && mem.value.phase.Healthy? && Serves(world.main, release)
      ensures !HealthyRecord(old(world.disk)) ==> !Adrift(world)
      ensures Smooth(script, release, old(|trace|), 10) && old(CanFreshInstall(release, generated)) ==>
                && ok && |trace| == old(|trace|) + 10 && Up()
                && Some(world.env.value.kept) == Keeping(old(world.env), generated)
                && world.backups == old(world.backups)
                && world.volumes.Keys == old(world).volumes.Keys + {mem.value.volumes.pg, mem.value.volumes.data}
    {
      ghost var good := Smooth(script, release, |trace|, 10) && CanFreshInstall(release, generated);
      var step := CreateVolumes();
      ok := false;
      assert good ==> && step && CanLaunch(release, mem.value.volumes, generated)
                      && Smooth(script, release, |trace|, 7);
      if step { ok := LaunchFirst(release, generated); }
    }

    /** The first release is started, probed and recorded. */
    method LaunchFirst(release: Release, generated: Option<seq<string>>) returns (ok: bool)
      requires Valid() && !inRecovery && ValidRelease(release) && GeneratedLines(generated)
      requires mem.Some? && mem.value.release == release && world.disk == mem && !mem.value.phase.Healthy?
      modifies this`world, this`trace, this`mem, this`saves
      ensures Valid() && Continues(old(trace), trace) && !Adrift(world)
      ensures mem.Some? && mem.value == old(mem).value.(phase := mem.value.phase)
      ensures ok ==> && |trace| == old(|trace|) + 7 && world.disk == mem && Settled(world)
                     && mem.value.phase.Healthy? && Serves(world.main, release)
      ensures ok ==> && world.backups == old(world.backups) && world.recovery == old(world.recovery)
                     && world.volumes.Keys == old(world).volumes.Keys
      ensures ok ==> var kept := Keeping(old(world.env), generated);
                     kept.Some? && world.env == Some(Env(kept.value, release.image, mem.value.volumes))
      ensures Smooth(script, release, old(|trace|), 7) && old(CanLaunch(release, mem.value.volumes, generated)) ==> ok
    {
      ghost var good := Smooth(script, release, |trace|, 7) && CanLaunch(release, mem.value.volumes, generated);
      assert good ==> Smooth(script, release, |trace|, 6);
      ok := Launch(release, mem.value.volumes, generated);
      if ok { ok := Save(mem.value.(phase := Healthy)); }
    }

    /** Records INSTALLING and finds or creates the volumes. */
    method CreateVolumes() returns (ok: bool)
      requires Valid() && !inRecovery && mem.Some?
      modifies this`world, this`trace, this`mem, this`saves
      ensures Valid() && Continues(old(trace), trace) && mem == Some(old(mem).value.(phase := Installing))
      ensures world.env == old(world.env) && world.backups == old(world.backups) && SameContainers(old(world), world)
      ensures ok ==> |trace| == old(|trace|) + 3 && world.disk == mem
      ensures !HealthyRecord(old(world.disk)) ==> !HealthyRecord(world.disk)
      ensures ok ==> world.volumes.Keys == old(world).volumes.Keys + {mem.value.volumes.pg, mem.value.volumes.data}
      ensures (forall n: nat | old(|trace|) <= n < old(|trace|) + 3 :: !script(n).raises) ==> ok
    {
      ok := Save(mem.value.(phase := Installing));
      if ok { ok := EnsureVolume(mem.value.volumes.pg); }
      if ok { ok := EnsureVolume(mem.value.volumes.data); }
    }

    /** Records BACKING_UP and stops the station. */
    method BeginBackup() returns (ok: bool)
      requires Valid() && mem.Some? && !inRecovery
      modifies this`world, this`trace, this`mem, this`saves
      ensures Valid() && Continues(old(trace), trace) && mem == Some(old(mem).value.(phase := BackingUp))
      ensures world.env == old(world.env) && world.backups == old(world.backups)
      ensures world.recovery == old(world.recovery)
      ensures world.volumes.Keys == old(world).volumes.Keys
      ensures ok ==> |trace| == old(|trace|) + 3 && Took(old(Now()))
      ensures Adrift(world) <==> old(Adrift(world)) && !Took(old(Now()))
      ensures (forall n: nat | old(|trace|) <= n < old(|trace|) + 3 :: !script(n).raises) ==> ok
    {
      ok := Save(mem.value.(phase := BackingUp));
      if ok { ok := ComposeStop(false); }
      if ok { ok := External(false); }  // the backup directory
    }

    /** `backup`.  Without `resume` it leaves the station stopped and BACKED_UP recorded, and its seven steps
        succeed if they go well and the directory's name is new. */
    method DoBackup(resume: bool) returns (ok: bool, dir: nat)
      requires Valid() && mem == world.disk && !inRecovery
      modifies this`world, this`trace, this`mem, this`saves
      ensures Valid() && Continues(old(trace), trace)
      ensures ok ==> mem.Some? && world.disk == mem && old(mem).Some? && old(mem).value.phase.Healthy?
      ensures ok ==> mem.value == old(mem).value.(phase := if resume then Healthy else BackedUp, backup := Some(dir))
      ensures ok ==> dir in world.backups && world.backups[dir].release == mem.value.release
      ensures ok && resume ==> Serves(world.main, mem.value.release)
      ensures mem.Some? ==> !Changing(mem.value.phase) || mem == old(mem)
      ensures HealthyRecord(old(mem)) && !Took(old(Now())) ==> mem.Some? && mem.value.phase.BackingUp?
      ensures Adrift(world) <==> old(Adrift(world)) && !Took(old(Now()))
      ensures !resume && ok ==> BackedUpFrom(old(world), world, dir) && |trace| == old(|trace|) + 7
      ensures !resume && ok ==> world.env == old(world.env) && dir == script(old(|trace|) + 5).dir
      ensures !resume && old(CanBackUp()) ==> ok
    {
      ok, dir := false, 0;
      if mem.None? || !mem.value.phase.Healthy? {
        return;
      }
      var step := BeginBackup();
      if step {
        ok, dir := CompleteBackup(resume);
      }
    }

    /** The part of `backup` inside its `try`. */
    method CompleteBackup(resume: bool) returns (ok: bool, dir: nat)
      requires Valid() && mem.Some? && !inRecovery && !Changing(mem.value.phase)
      modifies this`world, this`trace, this`mem, this`saves
      ensures Valid() && Continues(old(trace), trace) && mem.Some? && !Changing(mem.value.phase)
      ensures ok ==> world.disk == mem && mem.value ==
                       old(mem).value.(phase := if resume then Healthy else BackedUp, backup := Some(dir))
      ensures ok ==> dir in world.backups && world.backups[dir].release == mem.value.release
      ensures ok && resume ==> Serves(world.main, mem.value.release)
      ensures Adrift(world) ==> old(Adrift(world))
      ensures !resume && ok ==> Copied(dir)
      ensures (&& !resume && (forall n: nat | old(|trace|) <= n < old(|trace|) + 4 :: !script(n).raises)
               && old(world.env).Some? && script(old(|trace|) + 2).dir !in old(world.backups)) ==> ok
    {
      ok, dir := CopyOut();
      if ok && resume {
        ok := Restart();
      }
      if !ok {
        ResumeCurrent();
      }
    }

    predicate CanBackUp()
      reads this
    {
      && mem.Some? && mem.value.phase.Healthy? && world.env.Some? && script(|trace| + 5).dir !in world.backups
      && forall n: nat | |trace| <= n < |trace| + 7 :: !script(n).raises
    }

    /** The backup `dir` was made in four steps and recorded. */
    twostate predicate Copied(dir: nat)
      reads this
    {
      && old(mem).Some? && mem == Some(old(mem).value.(phase := BackedUp, backup := Some(dir))) && world.disk == mem
      && |trace| == old(|trace|) + 4 && dir == script(old(|trace|) + 2).dir
      && world.env == old(world.env) && world.env.Some?
      && world.backups == old(world.backups)[dir := Backup(mem.value.release, world.env.value)]
      && world.recovery == old(world.recovery) && world.volumes.Keys == old(world).volumes.Keys
    }

    /** Dump, archive, configuration and manifest; then BACKED_UP is recorded. */
    method CopyOut() returns (ok: bool, dir: nat)
      requires Valid() && mem.Some? && !inRecovery
      modifies this`world, this`trace, this`mem, this`saves
      ensures Valid() && Continues(old(trace), trace) && mem.Some?
      ensures mem == old(mem) || mem.value == old(mem).value.(phase := BackedUp, backup := Some(dir))
      ensures Adrift(world) ==> old(Adrift(world))
      ensures ok ==> Copied(dir)
      ensures (&& (forall n: nat | old(|trace|) <= n < old(|trace|) + 4 :: !script(n).raises)
               && old(world.env).Some? && script(old(|trace|) + 2).dir !in old(world.backups)) ==> ok
    {
      ok, dir := CopyFiles();
      if ok { ok := Save(mem.value.(phase := BackedUp, backup := Some(dir))); }
    }

    method CopyFiles() returns (ok: bool, dir: nat)
      requires Valid() && mem.Some? && !inRecovery
      modifies this`world, this`trace
      ensures Valid() && Continues(old(trace), trace)
      ensures world.disk == old(world.disk) && world.found == old(world.found) && world.env == old(world.env)
      ensures SameContainers(old(world), world) && world.volumes.Keys == old(world).volumes.Keys
      ensures ok ==> |trace| == old(|trace|) + 3 && world.env.Some? && dir == script(old(|trace|) + 2).dir
      ensures ok ==> world.backups == old(world.backups)[dir := Backup(mem.value.release, world.env.value)]
      ensures (&& (forall n: nat | old(|trace|) <= n < old(|trace|) + 3 :: !script(n).raises)
               && old(world.env).Some? && script(old(|trace|) + 2).dir !in old(world.backups)) ==> ok
    {
      dir := 0;
      ok := External(false);  // dump
      if ok { ok := External(false); }  // archive
      if ok { ok, dir := SealBackup(); }
    }

    /** What the upgrade of a running installation needs besides seventeen steps that go well. */
    predicate CanUpgrade(release: Release)
      reads this
    {
      && Up() && Acceptable(world.env.value.kept, release, mem.value.volumes, root)
      && script(|trace| + 5).dir !in world.backups
    }

    /** What an upgrade leaves: the installation up on the new release, with its environment's lines and its volumes,
        and a backup of the release before. */
    twostate predicate Upgraded(release: Release, dir: nat)
      reads this
    {
      && Up() && mem.value.release == release && mem.value.readback.Some? && mem.value.backup == Some(dir)
      && old(mem).Some? && mem.value.volumes == old(mem).value.volumes
      && BackedUpFrom(old(world), world, dir) && world.env.value.kept == old(world).env.value.kept
    }

    /** `upgrade`. */
    method DoUpgrade(args: Args) returns (ok: bool)
      requires Valid() && ValidArgs(args) && mem == world.disk && !inRecovery
      modifies this`world, this`trace, this`mem, this`saves
      ensures Valid() && Continues(old(trace), trace)
      ensures ok ==> mem.Some? && world.disk == mem && mem.value.phase.Healthy? && Serves(world.main, mem.value.release)
      ensures ok ==> && old(mem).Some? && old(mem).value.phase.Healthy?
                     && args.asset == Some(mem.value.release) && mem.value.attempted == args.asset
                     && mem.value.previous == Some(old(mem).value.release)
                     && StateInv(old(mem).value) && Upgrades(old(mem).value.release, mem.value.release)
      ensures Adrift(world) <==>
                && old(Adrift(world))
                && (|| args.asset.None? || !Upgrades(old(world).disk.value.release, args.asset.value)
                    || !Took(old(Now())))
      ensures Adrift(world) ==> mem.Some? && (mem.value.phase.Healthy? || mem.value.phase.BackingUp?)
      ensures (&& args.asset.Some? && old(CanUpgrade(args.asset.value))
               && Upgrades(old(mem).value.release, args.asset.value)
               && Smooth(script, args.asset.value, old(|trace|), 17)) ==>
                ok && |trace| == old(|trace|) + 17 && Upgraded(args.asset.value, script(old(|trace|) + 5).dir)
    {
      ok := false;
      if args.asset.None? || mem.None? || !mem.value.phase.Healthy? {
        return;
      }
      var allowed := MayUpgrade(mem.value.release, args.asset.value);
      if allowed {
        ok := UpgradeTo(args.asset.value, args.generated);
      }
    }

    /** The part of `upgrade` after the checks. */
    method UpgradeTo(release: Release, generated: Option<seq<string>>) returns (ok: bool)
      requires Valid() && mem == world.disk && !inRecovery && ValidRelease(release) && GeneratedLines(generated)
      requires mem.Some? && mem.value.phase.Healthy? && Upgrades(mem.value.release, release)
      modifies this`world, this`trace, this`mem, this`saves
      ensures Valid() && Continues(old(trace), trace)
      ensures ok ==> mem.Some? && world.disk == mem && mem.value.phase.Healthy? && Serves(world.main, release)
      ensures ok ==> && mem.value.release == release && mem.value.attempted == Some(release)
                     && mem.value.previous == Some(old(mem).value.release)
      ensures Adrift(world) <==> old(Adrift(world)) && !Took(old(Now()))
      ensures Adrift(world) ==> mem.Some? && mem.value.phase.BackingUp?
      ensures old(CanUpgrade(release)) && Smooth(script, release, old(|trace|), 17) ==>
                ok && |trace| == old(|trace|) + 17 && Upgraded(release, script(old(|trace|) + 5).dir)
    {
      ok := false;
      ghost var good := CanUpgrade(release) && Smooth(script, release, |trace|, 17);
      var prior := mem.value.release;
      assert good ==> CanBackUp() && !script(|trace| + 7).raises;
      var step, dir := BackupAndRead();
      assert good ==> step;
      if step {
        assert !HealthyRecord(world.disk) && !Adrift(world);
        assert good ==> CanSwitch(release) && Smooth(script, release, |trace|, 9);
        ok := SwitchFrom(old(world), prior, release, dir, generated);
      }
    }

    /** `SwitchTo`, which leaves the backup that was made of `before` as it is. */
    method SwitchFrom(ghost before: World, prior: Release, release: Release, dir: nat, generated: Option<seq<string>>)
      returns (ok: bool)
      requires Valid() && !inRecovery && ValidRelease(prior) && ValidRelease(release) && GeneratedLines(generated)
      requires Upgrades(prior, release) && mem.Some? && mem.value.release == prior && world.disk == mem
      requires BackedUpFrom(before, world, dir) && !HealthyRecord(world.disk)
      modifies this`world, this`trace, this`mem, this`saves
      ensures Valid() && Continues(old(trace), trace) && !Adrift(world)
      ensures ok ==> mem.Some? && world.disk == mem && mem.value.phase.Healthy? && Serves(world.main, release)
      ensures ok ==> && mem.value.release == release && mem.value.attempted == Some(release)
                     && mem.value.previous == Some(prior)
      ensures ok ==> |trace| == old(|trace|) + 9 && mem.value.readback.Some? && mem.value.backup == Some(dir)
      ensures ok ==> mem.value.volumes == old(mem).value.volumes && BackedUpFrom(before, world, dir)
      ensures ok && old(CanSwitch(release)) ==> Up() && world.env.value.kept == old(world).env.value.kept
      ensures old(CanSwitch(release)) && Smooth(script, release, old(|trace|), 9) ==> ok
    {
      ok := SwitchTo(prior, release, dir, generated);
      if ok {
        BackedUpStays(before, old(world), world, dir);
      }
    }

    /** The backup and the first readback, after whose failure the old release is started again. */
    method BackupAndRead() returns (ok: bool, dir: nat)
      requires Valid() && mem == world.disk && !inRecovery && mem.Some? && mem.value.phase.Healthy?
      modifies this`world, this`trace, this`mem, this`saves
      ensures Valid() && Continues(old(trace), trace)
      ensures ok ==> mem == world.disk && mem.Some? && |trace| == old(|trace|) + 8
      ensures ok ==> mem.value == old(mem).value.(phase := BackedUp, backup := Some(dir))
      ensures ok ==> BackedUpFrom(old(world), world, dir) && world.env == old(world.env)
      ensures ok ==> dir == script(old(|trace|) + 5).dir
      ensures Adrift(world) <==> old(Adrift(world)) && !Took(old(Now()))
      ensures Adrift(world) ==> mem.Some? && mem.value.phase.BackingUp?
      ensures old(CanBackUp()) && !script(old(|trace|) + 7).raises ==> ok
    {
      ok, dir := DoBackup(false);
      if ok {
        ok := External(false);  // readback
        if !ok {
          ResumeCurrent();
        }
      }
    }

    predicate CanSwitch(release: Release)
      reads this
    {
      mem.Some? && world.env.Some? && CanLaunch(release, mem.value.volumes, None) && RecoveryIdle(world)
    }

    /** The part of `upgrade` after the backup and the first readback. */
    method SwitchTo(prior: Release, release: Release, dir: nat, generated: Option<seq<string>>) returns (ok: bool)
      requires Valid() && !inRecovery && ValidRelease(prior) && ValidRelease(release) && GeneratedLines(generated)
      requires Upgrades(prior, release) && mem.Some? && mem.value.release == prior && world.disk == mem
      modifies this`world, this`trace, this`mem, this`saves
      ensures Valid() && Continues(old(trace), trace)
      ensures ok ==> mem.Some? && world.disk == mem && mem.value.phase.Healthy? && Serves(world.main, release)
      ensures ok ==> && mem.value.release == release && mem.value.attempted == Some(release)
                     && mem.value.previous == Some(prior)
      ensures ok ==> |trace| == old(|trace|) + 9 && mem.value.readback.Some? && mem.value.backup == Some(dir)
      ensures ok ==> mem.value.volumes == old(mem).value.volumes && world.backups == old(world.backups)
      ensures ok ==> world.recovery == old(world.recovery) && world.volumes.Keys == old(world).volumes.Keys
      ensures !HealthyRecord(old(world.disk)) ==> !Adrift(world)
      ensures ok && old(CanSwitch(release)) ==> Up() && world.env.value.kept == old(world).env.value.kept
      ensures old(CanSwitch(release)) && Smooth(script, release, old(|trace|), 9) ==> ok
    {
      ok := false;
      ghost var good := CanSwitch(release) && Smooth(script, release, |trace|, 9);
      var expected := Now().number;
      var step := Save(mem.value.(phase := Upgrading, previous := Some(prior), attempted := Some(release),
                                  readback := Some(expected), backup := Some(dir)));
      assert good ==> step && Smooth(script, release, |trace|, 8) && CanLaunch(release, mem.value.volumes, generated);
      if step { ok := LaunchUpgrade(release, generated); }
    }

    /** The new release is started, probed and recorded. */
    method LaunchUpgrade(release: Release, generated: Option<seq<string>>) returns (ok: bool)
      requires Valid() && !inRecovery && ValidRelease(release) && GeneratedLines(generated)
      requires mem.Some? && world.disk == mem
      requires mem.value.attempted == Some(release) && mem.value.previous == Some(mem.value.release)
      modifies this`world, this`trace, this`mem, this`saves
      ensures Valid() && Continues(old(trace), trace)
      ensures ok ==> |trace| == old(|trace|) + 8 && world.disk == mem && Settled(world) && Serves(world.main, release)
      ensures ok ==> mem == Some(old(mem).value.(phase := Healthy, release := release))
      ensures ok ==> world.backups == old(world.backups) && world.recovery == old(world.recovery)
      ensures ok ==> world.volumes.Keys == old(world).volumes.Keys
      ensures ok ==> var kept := Keeping(old(world.env), generated);
                     kept.Some? && world.env == Some(Env(kept.value, release.image, old(mem).value.volumes))
      ensures !HealthyRecord(old(world.disk)) ==> !Adrift(world)
      ensures old(CanLaunch(release, mem.value.volumes, generated)) && Smooth(script, release, old(|trace|), 8) ==> ok
    {
      ok := false;
      ghost var good := CanLaunch(release, mem.value.volumes, generated) && Smooth(script, release, |trace|, 8);
      assert good ==> Smooth(script, release, |trace|, 6);
      var step := Launch(release, mem.value.volumes, generated);
      if step { ok := FinishUpgrade(release); }
    }

    /** The second readback equals the expected one, and the upgrade is recorded. */
    method FinishUpgrade(release: Release) returns (ok: bool)
      requires Valid() && !inRecovery && mem.Some? && world.disk == mem && Serves(world.main, release)
      requires mem.value.attempted == Some(release) && mem.value.previous == Some(mem.value.release)
      modifies this`world, this`trace, this`mem, this`saves
      ensures Valid() && Continues(old(trace), trace) && SameContainers(old(world), world)
      ensures mem.Some? && world.env == old(world.env) && world.backups == old(world.backups)
      ensures world.volumes.Keys == old(world).volumes.Keys
      ensures ok ==> |trace| == old(|trace|) + 2 && world.disk == mem && Settled(world)
      ensures ok ==> mem.value == old(mem).value.(phase := Healthy, release := release)
      ensures Adrift(world) ==> old(Adrift(world))
      ensures !script(old(|trace|)).raises && !script(old(|trace|) + 1).raises ==> ok
    {
      ok := External(false);
      if ok { ok := Save(mem.value.(phase := Healthy, release := release)); }
    }

    /** `uninstall`.  It leaves HEALTHY recorded without the station exactly as `LeavesAdrift` says. */
    method DoUninstall(args: Args) returns (ok: bool)
      requires Valid() && ValidArgs(args) && mem == world.disk && !inRecovery
      modifies this`world, this`trace, this`mem, this`saves
      ensures Valid() && Continues(old(trace), trace)
      ensures ok ==> mem.Some? && world.disk == mem && world.main == Project(None, None)
      ensures ok ==> old(mem).Some? && mem.value == old(mem).value.(phase := if args.purge then Purged else Stopped)
      ensures old(mem).Some? && (args.purge ==> args.confirmPurge) && old(Now()).raises ==>
                !ok && mem == old(mem) && SameRecords(old(world), world)
      ensures old(mem).Some? && (args.purge ==> args.confirmPurge) && Took(old(Now())) ==>
                world.main == Project(None, None)
      ensures Adrift(world) <==> LeavesAdrift(old(world), script, old(|trace|), Uninstall, args)
      ensures HealthyRecord(old(mem)) ==> mem.Some? && !Changing(mem.value.phase)
    {
      ok := false;
      if mem.Some? && (args.purge ==> args.confirmPurge) {
        ok := TakeAway(args.purge);
      }
    }

    /** The part of `uninstall` after the checks. */
    method TakeAway(purge: bool) returns (ok: bool)
      requires Valid() && mem.Some? && mem == world.disk && !inRecovery
      modifies this`world, this`trace, this`mem, this`saves
      ensures Valid() && Continues(old(trace), trace)
      ensures ok ==> mem.Some? && world.disk == mem && world.main == Project(None, None)
      ensures ok ==> mem.value == old(mem).value.(phase := if purge then Purged else Stopped)
      ensures old(Now()).raises ==> !ok && mem == old(mem) && SameRecords(old(world), world)
      ensures Took(old(Now())) ==> world.main == Project(None, None)
      ensures Adrift(world) <==>
                && HealthyRecord(old(world.disk)) && NotRemoved(old(world), script, old(|trace|), purge)
                && (old(Adrift(world)) || Took(old(Now())) || old(Now()).stationGone)
      ensures HealthyRecord(old(mem)) ==> mem.Some? && !Changing(mem.value.phase)
    {
      ok := ClearAway(purge);
      if ok { ok := Save(mem.value.(phase := if purge then Purged else Stopped)); }
    }

    /** Containers, and the volumes with a purge. */
    method ClearAway(purge: bool) returns (ok: bool)
      requires Valid() && mem.Some? && mem == world.disk && !inRecovery
      modifies this`world, this`trace
      ensures Valid() && Continues(old(trace), trace) && SameRecords(old(world), world)
      ensures ok <==> !old(Now()).raises && (purge ==> Removes(old(world), script, old(|trace|) + 1))
      ensures ok ==> |trace| == old(|trace|) + if purge then 3 else 1
      ensures world.main.station == if Took(old(Now())) || old(Now()).stationGone then None else old(world).main.station
      ensures Took(old(Now())) ==> world.main == Project(None, None)
    {
      ok := ComposeDown();
      if ok && purge { ok := RemoveVolumes(); }
    }

    /** Both volumes, once nothing of the installation mounts them. */
    method RemoveVolumes() returns (ok: bool)
      requires Valid() && mem.Some? && mem == world.disk && world.main == Project(None, None)
      modifies this`world, this`trace
      ensures Valid() && Continues(old(trace), trace)
      ensures SameRecords(old(world), world) && SameContainers(old(world), world)
      ensures ok <==> Removes(old(world), script, old(|trace|))
      ensures ok ==> |trace| == old(|trace|) + 2
    {
      ok := RemoveVolume(mem.value.volumes.pg);
      if ok { ok := RemoveVolume(mem.value.volumes.data); }
    }

    // -------------------------------------------------------------------------
    // Rollback
    // -------------------------------------------------------------------------

    /** What a rollback keeps while it works: a safe history, and the two projects kept apart until
        only the installation's own is left. */
    ghost predicate Watching(watch: Watch, plan: Plan)
      reads this
    {
      && Valid() && mem.Some? && world.disk.Some?
      && mem.value == world.disk.value.(volumes := mem.value.volumes) && world.disk.value.volumes == plan.start.volumes
      && !mem.value.phase.Healthy? && NoneHealthy(world)
      && ValidRelease(plan.prior) && ValidVolumes(plan.volumes) && FreshPlan(watch.held, plan)
      && watch.since < |trace| && SafeSince(trace, watch, plan)
      && Kept(world, watch, plan) && (if inRecovery then Apart(world, plan) else Alone(world, plan))
    }

    /** What the steps of a rollback need besides going well: volumes, and lines that can be written. */
    ghost predicate Ready(plan: Plan, env: Env)
      reads this
    {
      && plan.volumes.pg in world.volumes && plan.volumes.data in world.volumes
      && Acceptable(env.kept, plan.prior, plan.volumes, root)
    }

    method WatchedExternal(plan: Plan, copies: bool, ghost watch: Watch) returns (ok: bool)
      requires Watching(watch, plan)
      modifies this`world, this`trace
      ensures Watching(watch, plan) && Continues(old(trace), trace) && |trace| == old(|trace|) + 1
      ensures ok == !old(Now()).raises
      ensures SameRecords(old(world), world) && SameContainers(old(world), world)
      ensures world.volumes.Keys == old(world).volumes.Keys
    {
      ok := External(copies);
      SafeStep(old(trace), old(world), trace, world, watch, plan);
    }

    method WatchedHealth(plan: Plan, ghost watch: Watch) returns (ok: bool)
      requires Watching(watch, plan)
      modifies this`world, this`trace
      ensures Watching(watch, plan) && Continues(old(trace), trace) && |trace| == old(|trace|) + 1
      ensures ok <==> !old(Now()).raises && Answers(world, plan.prior)
      ensures SameRecords(old(world), world) && SameContainers(old(world), world)
      ensures world.volumes.Keys == old(world).volumes.Keys
    {
      ok := CheckHealth(plan.prior);
      SafeStep(old(trace), old(world), trace, world, watch, plan);
    }

    method WatchedWrite(plan: Plan, env: Env, ghost watch: Watch) returns (ok: bool)
      requires Watching(watch, plan)
      requires EnvInv(env) && world.env.Some? && env.kept == world.env.value.kept
      modifies this`world, this`trace
      ensures Watching(watch, plan) && Continues(old(trace), trace) && |trace| == old(|trace|) + 1
      ensures ok <==> !old(Now()).raises && Acceptable(env.kept, plan.prior, plan.volumes, root)
      ensures SameContainers(old(world), world) && world.disk == old(world.disk)
      ensures world.volumes.Keys == old(world).volumes.Keys
      ensures world.env.Some? && env.kept == world.env.value.kept
      ensures ok ==> CurrentEnv().Some? && CurrentEnv().value.volumes == plan.volumes
    {
      ok := WriteEnvironment(plan.prior, plan.volumes, Some(env), None);
      SafeStep(old(trace), old(world), trace, world, watch, plan);
    }

    method WatchedFill(plan: Plan, ghost watch: Watch) returns (ok: bool)
      requires Watching(watch, plan) && plan.restoring
      modifies this`world, this`trace
      ensures Watching(watch, plan) && Continues(old(trace), trace) && |trace| == old(|trace|) + 1
      ensures ok <==> !old(Now()).raises && plan.volumes.pg in world.volumes
      ensures SameRecords(old(world), world) && SameContainers(old(world), world)
      ensures world.volumes.Keys == old(world).volumes.Keys
    {
      ok := Fill(plan.volumes.pg);
      SafeStep(old(trace), old(world), trace, world, watch, plan);
    }

    method WatchedUp(withStation: bool, plan: Plan, ghost watch: Watch) returns (ok: bool)
      requires Watching(watch, plan)
      requires CurrentEnv().Some? && CurrentEnv().value.volumes == plan.volumes
      requires withStation && inRecovery ==>
                 world.recovery.postgres.Some? && world.recovery.postgres.value.volume == plan.volumes.pg
      modifies this`world, this`trace
      ensures Watching(watch, plan) && Continues(old(trace), trace) && |trace| == old(|trace|) + 1
      ensures ok <==> !old(Now()).raises && old(CanStart(withStation))
      ensures SameRecords(old(world), world) && Other() == old(Other())
      ensures world.volumes.Keys == old(world).volumes.Keys
      ensures ok ==> IsUp(Current(), CurrentEnv(), old(Now()).identity, withStation)
    {
      ok := ComposeUp(withStation);
      SafeStep(old(trace), old(world), trace, world, watch, plan);
    }

    method WatchedDown(plan: Plan, ghost watch: Watch) returns (ok: bool)
      requires Watching(watch, plan)
      modifies this`world, this`trace
      ensures Watching(watch, plan) && Continues(old(trace), trace) && |trace| == old(|trace|) + 1
      ensures ok == !old(Now()).raises
      ensures SameRecords(old(world), world) && Other() == old(Other())
      ensures world.volumes.Keys == old(world).volumes.Keys
      ensures ok ==> Current() == Project(None, None)
    {
      ok := ComposeDown();
      SafeStep(old(trace), old(world), trace, world, watch, plan);
    }

    /** What a rollback that succeeded leaves. */
    predicate RolledBack(plan: Plan)
      reads this
    {
      && mem.Some? && world.disk == mem && mem.value.phase.Healthy? && mem.value.release == plan.prior
      && mem.value.volumes == plan.volumes && Serves(world.main, plan.prior)
    }

    /** A safe history so far, wherever the rollback was interrupted. */
    ghost predicate Guarded(watch: Watch, plan: Plan)
      reads this
    {
      && Valid() && mem.Some? && world.disk.Some? && FreshPlan(watch.held, plan)
      && watch.since < |trace| && SafeSince(trace, watch, plan)
      && Kept(world, watch, plan)
    }

    /** A save during a rollback, either of the original volumes or of the whole switch. */
    method WatchedSave(s: State, plan: Plan, ghost watch: Watch) returns (ok: bool)
      requires Guarded(watch, plan) && StateInv(s) && ReleaseStep(world.disk, s)
      requires s.volumes == plan.start.volumes || IsSwitch(s, plan)
      requires s.phase.Healthy? ==> Serves(world.main, s.release)
      modifies this`world, this`trace, this`mem, this`saves
      ensures Guarded(watch, plan) && Continues(old(trace), trace) && |trace| == old(|trace|) + 1
      ensures ok == !old(Now()).raises && saves == old(saves) + [Saved(s, Took(old(Now())), !ok)]
      ensures mem == Some(s) && SameContainers(old(world), world)
      ensures world.disk == if Took(old(Now())) then Some(s) else old(world.disk)
      ensures ok ==> world.found == {Some(s)}
      ensures NoiseIn(old(world), world, old(Now()).noise)
      ensures world.env == old(world.env) && world.backups == old(world.backups)
      ensures world.volumes.Keys == old(world).volumes.Keys
    {
      ok := Save(s);
      SafeStep(old(trace), old(world), trace, world, watch, plan);
    }

    /** Writes the `.env` of the current project and copies its `docker-compose.yml`. */
    method BindProject(plan: Plan, env: Env, ghost watch: Watch) returns (ok: bool)
      requires Watching(watch, plan)
      requires EnvInv(env) && world.env.Some? && env.kept == world.env.value.kept
      modifies this`world, this`trace
      ensures Watching(watch, plan) && Continues(old(trace), trace)
      ensures SameContainers(old(world), world) && world.disk == old(world.disk)
      ensures world.volumes.Keys == old(world).volumes.Keys
      ensures world.env.Some? && env.kept == world.env.value.kept
      ensures ok ==> CurrentEnv().Some? && CurrentEnv().value.volumes == plan.volumes && |trace| == old(|trace|) + 2
      ensures Acceptable(env.kept, plan.prior, plan.volumes, root) && Smooth(script, plan.prior, old(|trace|), 2) ==> ok
    {
      ok := WatchedWrite(plan, env, watch);
      if ok { ok := WatchedExternal(plan, !inRecovery, watch); }
    }

    /** Starts PostgreSQL in the recovery project, and restores the dump into a new volume. */
    method StartDatabase(plan: Plan, env: Env, ghost watch: Watch) returns (ok: bool)
      requires Watching(watch, plan) && inRecovery
      requires EnvInv(env) && world.env.Some? && env.kept == world.env.value.kept
      modifies this`world, this`trace
      ensures Watching(watch, plan) && Continues(old(trace), trace)
      ensures world.disk == old(world.disk) && world.env.Some? && env.kept == world.env.value.kept
      ensures world.main == old(world.main) && world.volumes.Keys == old(world).volumes.Keys
      ensures ok ==> CurrentEnv().Some? && CurrentEnv().value.volumes == plan.volumes
      ensures ok ==> world.recovery.postgres.Some? && world.recovery.postgres.value.volume == plan.volumes.pg
      ensures ok ==> |trace| == old(|trace|) + if plan.restoring then 4 else 3
      ensures (&& old(Ready(plan, env))
               && Smooth(script, plan.prior, old(|trace|), if plan.restoring then 4 else 3)) ==> ok
    {
      ok := BindProject(plan, env, watch);
      if ok { ok := FillDatabase(plan, watch); }
    }

    /** PostgreSQL on the planned volume, with the dump restored into it if it is new. */
    method FillDatabase(plan: Plan, ghost watch: Watch) returns (ok: bool)
      requires Watching(watch, plan) && inRecovery
      requires CurrentEnv().Some? && CurrentEnv().value.volumes == plan.volumes
      modifies this`world, this`trace
      ensures Watching(watch, plan) && Continues(old(trace), trace) && SameRecords(old(world), world)
      ensures world.main == old(world.main) && world.volumes.Keys == old(world).volumes.Keys
      ensures ok ==> world.recovery.postgres.Some? && world.recovery.postgres.value.volume == plan.volumes.pg
      ensures ok ==> |trace| == old(|trace|) + if plan.restoring then 2 else 1
      ensures (&& plan.volumes.pg in old(world).volumes
               && Smooth(script, plan.prior, old(|trace|), if plan.restoring then 2 else 1)) ==> ok
    {
      ok := WatchedUp(false, plan, watch);
      if ok && plan.restoring { ok := WatchedFill(plan, watch); }  // pg_restore
    }

    /** The number of steps in which the old release is tried out. */
    static function TrialSteps(plan: Plan): nat {
      if plan.restoring then 8 else 7
    }

    /** The one of them that reads back. */
    static function ReadbackStep(plan: Plan): nat {
      TrialSteps(plan) - 2
    }

    /** Tries the old release out in a project of its own, and takes that project down again. */
    method TryRecovery(plan: Plan, env: Env, ghost watch: Watch) returns (ok: bool)
      requires Watching(watch, plan) && inRecovery
      requires EnvInv(env) && world.env.Some? && env.kept == world.env.value.kept
      modifies this`world, this`trace, this`mem
      ensures Watching(watch, plan) && Continues(old(trace), trace)
      ensures mem.value == old(mem).value.(volumes := mem.value.volumes)
      ensures world.env.Some? && env.kept == world.env.value.kept && world.volumes.Keys == old(world).volumes.Keys
      ensures ok ==> world.recovery == Project(None, None) && mem.value.volumes == plan.volumes
      ensures ok ==> |trace| == old(|trace|) + TrialSteps(plan)
      ensures old(Ready(plan, env)) && Smooth(script, plan.prior, old(|trace|), TrialSteps(plan)) ==> ok
      ensures old(Ready(plan, env)) && RaisesAfter(script, plan.prior, old(|trace|), ReadbackStep(plan)) ==>
                !ok && |trace| == old(|trace|) + ReadbackStep(plan) + 1 && OnVolumes(world.recovery, plan.volumes)
    {
      ghost var stuck := Ready(plan, env) && RaisesAfter(script, plan.prior, |trace|, ReadbackStep(plan));
      ok := StartDatabase(plan, env, watch);
      assert stuck ==> ok && RaisesAfter(script, plan.prior, |trace|, 2);
      if ok { ok := TryStation(plan, watch); }
    }

    /** The old release's station in the recovery project. */
    method TryStation(plan: Plan, ghost watch: Watch) returns (ok: bool)
      requires Watching(watch, plan) && inRecovery
      requires CurrentEnv().Some? && CurrentEnv().value.volumes == plan.volumes
      requires world.recovery.postgres.Some? && world.recovery.postgres.value.volume == plan.volumes.pg
      modifies this`world, this`trace, this`mem
      ensures Watching(watch, plan) && Continues(old(trace), trace) && SameRecords(old(world), world)
      ensures mem.value == old(mem).value.(volumes := mem.value.volumes)
      ensures world.volumes.Keys == old(world).volumes.Keys
      ensures ok ==> world.recovery == Project(None, None) && mem.value.volumes == plan.volumes
      ensures ok ==> |trace| == old(|trace|) + 4
      ensures old(CanStart(true)) && Smooth(script, plan.prior, old(|trace|), 4) ==> ok
      ensures old(CanStart(true)) && RaisesAfter(script, plan.prior, old(|trace|), 2) ==>
                !ok && |trace| == old(|trace|) + 3 && OnVolumes(world.recovery, plan.volumes)
    {
      ok := WatchedUp(true, plan, watch);
      if ok { ok := RebindAndProbe(plan, watch); }
    }

    /** The record in memory points at the planned volumes, and the trial is probed. */
    method RebindAndProbe(plan: Plan, ghost watch: Watch) returns (ok: bool)
      requires Watching(watch, plan) && inRecovery
      modifies this`world, this`trace, this`mem
      ensures Watching(watch, plan) && Continues(old(trace), trace) && SameRecords(old(world), world)
      ensures mem.value == old(mem).value.(volumes := plan.volumes)
      ensures world.volumes.Keys == old(world).volumes.Keys
      ensures ok ==> world.recovery == Project(None, None) && |trace| == old(|trace|) + 3
      ensures Smooth(script, plan.prior, old(|trace|), 3) && old(Answers(world, plan.prior)) ==> ok
      ensures old(Answers(world, plan.prior)) && RaisesAfter(script, plan.prior, old(|trace|), 1) ==>
                !ok && |trace| == old(|trace|) + 2 && world.recovery == old(world.recovery)
    {
      Rebind(plan.volumes, plan, watch);
      ok := ProbeRecovery(plan, watch);
    }

    /** The record in memory points at other volumes; nothing is saved. */
    method Rebind(volumes: Volumes, plan: Plan, ghost watch: Watch)
      requires Watching(watch, plan) && ValidVolumes(volumes)
      modifies this`mem
      ensures Watching(watch, plan) && mem.value == old(mem).value.(volumes := volumes)
    {
      mem := Some(mem.value.(volumes := volumes));
    }

    /** Health and readback of the recovery project, and its removal. */
    method ProbeRecovery(plan: Plan, ghost watch: Watch) returns (ok: bool)
      requires Watching(watch, plan) && inRecovery
      modifies this`world, this`trace
      ensures Watching(watch, plan) && Continues(old(trace), trace) && SameRecords(old(world), world)
      ensures world.volumes.Keys == old(world).volumes.Keys
      ensures ok ==> world.recovery == Project(None, None) && |trace| == old(|trace|) + 3
      ensures Smooth(script, plan.prior, old(|trace|), 3) && old(Answers(world, plan.prior)) ==> ok
      ensures old(Answers(world, plan.prior)) && RaisesAfter(script, plan.prior, old(|trace|), 1) ==>
                !ok && |trace| == old(|trace|) + 2 && world.recovery == old(world.recovery)
    {
      ok := Probe(plan, watch);
      if ok { ok := WatchedDown(plan, watch); }
    }

    /** Takes the installation's own containers down, once the recovery project is gone. */
    method TakeDownMain(plan: Plan, ghost watch: Watch) returns (ok: bool)
      requires Watching(watch, plan) && inRecovery && world.recovery == Project(None, None)
      modifies this`world, this`trace, this`inRecovery
      ensures Guarded(watch, plan) && Continues(old(trace), trace) && !inRecovery && |trace| == old(|trace|) + 1
      ensures ok == !old(Now()).raises
      ensures SameRecords(old(world), world) && world.volumes.Keys == old(world).volumes.Keys
      ensures ok ==> Watching(watch, plan)
    {
      inRecovery := false;
      ok := ComposeDown();
      SafeStep(old(trace), old(world), trace, world, watch, plan);
    }

    /** Brings the installation up on the old release and the planned volumes. */
    method BringBack(plan: Plan, env: Env, ghost watch: Watch) returns (ok: bool)
      requires Watching(watch, plan) && !inRecovery
      requires EnvInv(env) && world.env.Some? && env.kept == world.env.value.kept
      modifies this`world, this`trace
      ensures Watching(watch, plan) && Continues(old(trace), trace) && world.disk == old(world.disk)
      ensures ok ==> Serves(world.main, plan.prior) && |trace| == old(|trace|) + 6
      ensures ok ==> world.env.Some? && world.env.value.volumes == plan.volumes
      ensures old(Ready(plan, env)) && Smooth(script, plan.prior, old(|trace|), 6) ==> ok
    {
      ok := BindProject(plan, env, watch);
      if ok { ok := ServeAgain(plan, watch); }
    }

    /** Containers, health, readback and schema of the installation itself. */
    method ServeAgain(plan: Plan, ghost watch: Watch) returns (ok: bool)
      requires Watching(watch, plan) && !inRecovery
      requires world.env.Some? && world.env.value.volumes == plan.volumes
      modifies this`world, this`trace
      ensures Watching(watch, plan) && Continues(old(trace), trace) && SameRecords(old(world), world)
      ensures ok ==> Serves(world.main, plan.prior) && |trace| == old(|trace|) + 4
      ensures Smooth(script, plan.prior, old(|trace|), 4) && old(CanStart(true)) ==> ok
    {
      ok := WatchedUp(true, plan, watch);
      if ok { ok := ProbeAgain(plan, watch); }
    }

    /** Health, readback and schema. */
    method ProbeAgain(plan: Plan, ghost watch: Watch) returns (ok: bool)
      requires Watching(watch, plan) && !inRecovery
      modifies this`world, this`trace
      ensures Watching(watch, plan) && Continues(old(trace), trace) && SameRecords(old(world), world)
      ensures SameContainers(old(world), world)
      ensures ok ==> Answers(world, plan.prior) && |trace| == old(|trace|) + 3
      ensures Smooth(script, plan.prior, old(|trace|), 3) && old(Answers(world, plan.prior)) ==> ok
    {
      ok := Probe(plan, watch);
      if ok { ok := WatchedExternal(plan, false, watch); }
    }

    /** Health and readback of the current project. */
    method Probe(plan: Plan, ghost watch: Watch) returns (ok: bool)
      requires Watching(watch, plan)
      modifies this`world, this`trace
      ensures Watching(watch, plan) && Continues(old(trace), trace) && SameRecords(old(world), world)
      ensures SameContainers(old(world), world) && world.volumes.Keys == old(world).volumes.Keys
      ensures ok ==> Answers(world, plan.prior) && |trace| == old(|trace|) + 2
      ensures Smooth(script, plan.prior, old(|trace|), 2) && old(Answers(world, plan.prior)) ==> ok
      ensures old(Answers(world, plan.prior)) && RaisesAfter(script, plan.prior, old(|trace|), 1) ==>
                !ok && |trace| == old(|trace|) + 2
    {
      ok := WatchedHealth(plan, watch);
      if ok { ok := WatchedExternal(plan, false, watch); }
    }

    /** The switching save was the last step, step `n`, and decided the outcome. */
    predicate Committed(ok: bool, before: seq<Saved>, n: nat, plan: Plan)
      reads this
    {
      && |trace| == n + 1 && ok == !script(n).raises
      && world.env.Some? && world.env.value.volumes == plan.volumes
      && (!ok ==> SwitchRaised(before, saves, world.disk, plan) && saves[|before|].replaced == script(n).effect)
    }

    /** Rebinds the installation to the old release and its volumes, and records the switch. */
    method CommitRecovery(plan: Plan, env: Env, ghost watch: Watch) returns (ok: bool)
      requires Watching(watch, plan) && !inRecovery && mem.value.volumes == plan.volumes
      requires mem.value.previous == Some(plan.prior)
      requires EnvInv(env) && world.env.Some? && env.kept == world.env.value.kept
      modifies this`world, this`trace, this`mem, this`saves
      ensures Guarded(watch, plan) && Continues(old(trace), trace) && !Adrift(world)
      ensures mem.value.release == old(mem).value.release || mem.value.release == plan.prior
      ensures mem.value == old(mem).value.(release := mem.value.release, phase := mem.value.phase)
      ensures ok ==> world.disk == mem && mem.value.phase.Healthy? && mem.value.release == plan.prior
      ensures ok ==> Serves(world.main, plan.prior)
      ensures !ok ==> SwitchRaised(old(saves), saves, world.disk, plan) || NoSwitch(old(saves), saves, world.disk, plan)
      ensures old(Ready(plan, env)) && Smooth(script, plan.prior, old(|trace|), 6) ==>
                Committed(ok, old(saves), old(|trace|) + 6, plan)
    {
      ghost var good := Ready(plan, env) && Smooth(script, plan.prior, |trace|, 6);
      ok := BringBack(plan, env, watch);
      assert good ==> ok;
      if ok { ok := SaveSwitch(plan, watch); }
    }

    /** The one save that switches phase, release and volumes together. */
    method SaveSwitch(plan: Plan, ghost watch: Watch) returns (ok: bool)
      requires Watching(watch, plan) && !inRecovery && mem.value.volumes == plan.volumes
      requires mem.value.previous == Some(plan.prior) && Serves(world.main, plan.prior)
      modifies this`world, this`trace, this`mem, this`saves
      ensures Guarded(watch, plan) && Continues(old(trace), trace) && |trace| == old(|trace|) + 1
      ensures mem == Some(old(mem).value.(release := plan.prior, phase := Healthy))
      ensures ok == !old(Now()).raises && world.env == old(world.env)
      ensures ok ==> world.disk == mem && Serves(world.main, plan.prior)
      ensures !ok ==> && SwitchRaised(old(saves), saves, world.disk, plan)
                      && saves[|old(saves)|].replaced == old(Now()).effect
      ensures !Adrift(world)
    {
      ok := WatchedSave(mem.value.(phase := Healthy, release := plan.prior), plan, watch);
    }

    /** The first step of every rollback stops the installation's station. */
    method StopStation(plan: Plan) returns (ok: bool, ghost watch: Watch)
      requires Valid() && !inRecovery && mem.Some? && world.disk == mem && mem.value == plan.start
      requires FreshPlan(world, plan)
      modifies this`world, this`trace
      ensures Valid() && Continues(old(trace), trace) && |trace| == old(|trace|) + 1
      ensures ok == !old(Now()).raises
      ensures watch == WatchFrom(trace, old(|trace|), old(world)) && SafeSince(trace, watch, plan)
      ensures SameRecords(old(world), world) && world.volumes.Keys == old(world).volumes.Keys
      ensures world.main.station ==
                if Took(old(Now())) then Halted(old(world).main.station) else old(world).main.station
      ensures world.recovery == old(world.recovery) && NoiseIn(old(world), world, old(Now()).noise)
      ensures ok ==> Guarded(watch, plan) && !Running(world.main.station)
      ensures plan.restoring && world.main.postgres.Some? ==> world.main.postgres.value.volume != plan.volumes.pg
      ensures FreshPlan(world, plan)
    {
      ok := ComposeStop(false);
      watch := WatchFrom(trace, old(|trace|), old(world));
      SafeAtStart(trace, old(world), plan);
    }

    /** Without new volumes the database must be down before another server may mount its volume. */
    method StopDatabase(plan: Plan, ghost watch: Watch) returns (ok: bool)
      requires Guarded(watch, plan) && !inRecovery && !Running(world.main.station)
      requires world.disk == mem && mem.value == plan.start
      modifies this`world, this`trace
      ensures Guarded(watch, plan) && Continues(old(trace), trace)
      ensures |trace| == old(|trace|) + 1 && ok == !old(Now()).raises
      ensures SameRecords(old(world), world) && world.volumes.Keys == old(world).volumes.Keys
      ensures world.main.station == old(world).main.station
      ensures ok ==> !Running(world.main.postgres)
    {
      ok := ComposeStop(true);
      SafeStep(old(trace), old(world), trace, world, watch, plan);
    }

    /** Stops what must not run beside the recovery project. */
    method StopAll(plan: Plan) returns (ok: bool, ghost watch: Watch)
      requires Valid() && !inRecovery && mem.Some? && world.disk == mem && mem.value == plan.start
      requires FreshPlan(world, plan)
      modifies this`world, this`trace
      ensures Valid() && Continues(old(trace), trace) && |trace| > old(|trace|)
      ensures watch == WatchFrom(trace, old(|trace|), old(world)) && SafeSince(trace, watch, plan)
      ensures SameRecords(old(world), world) && world.volumes.Keys == old(world).volumes.Keys
      ensures world.main.station ==
                if Took(old(Now())) then Halted(old(world).main.station) else old(world).main.station
      ensures ok <==> StopsGoWell(script, old(|trace|), plan.restoring)
      ensures ok ==> Guarded(watch, plan) && |trace| == old(|trace|) + QuietSteps(plan) - 1
      ensures ok ==> Apart(world, plan)
      ensures plan.restoring ==> WrittenAt(old(world), trace, script, old(|trace|)) && |trace| == old(|trace|) + 1
    {
      ok, watch := StopStation(plan);
      if ok && !plan.restoring {
        ok := StopDatabase(plan, watch);
      }
    }

    /** The number of steps in which what must not run is stopped, and the beginning recorded. */
    static function QuietSteps(plan: Plan): nat {
      if plan.restoring then 2 else 3
    }

    /** Stops what must not run beside the recovery project, and records that the rollback began. */
    method Quiesce(plan: Plan) returns (ok: bool, ghost watch: Watch)
      requires Valid() && !inRecovery && mem.Some? && world.disk == mem && mem.value == plan.start
      requires FreshPlan(world, plan)
      modifies this`world, this`trace, this`mem, this`saves
      ensures Valid() && Continues(old(trace), trace) && |trace| > old(|trace|)
      ensures watch == WatchFrom(trace, old(|trace|), old(world)) && SafeSince(trace, watch, plan)
      ensures mem.Some? && mem.value == plan.start.(phase := mem.value.phase)
      ensures world.env == old(world.env) && world.volumes.Keys == old(world).volumes.Keys
      ensures world.disk.Some? && world.disk.value.volumes == plan.start.volumes
      ensures |saves| <= |old(saves)| + 1
      ensures ok ==> |saves| > 0 && saves[|saves| - 1].state == mem.value
      ensures ok ==> world.disk == mem && NoneHealthy(world) && Apart(world, plan)
      ensures ok ==> Guarded(Strictly(watch, |trace| - 1), plan) && FoundRecordedFrom(trace, |trace| - 1, plan)
      ensures plan.restoring ==> FirstMoments(old(world), trace, script, old(|trace|))
      ensures ok ==> |saves| == |old(saves)| + 1 && |trace| == old(|trace|) + QuietSteps(plan)
      ensures ok <==> BeginsWell(script, old(|trace|), plan)
      ensures Adrift(world) <==> Stranded(old(world), script, old(|trace|), true, plan.restoring)
      ensures Adrift(world) ==>
                !ok && (HandlerRecords() <==> FailureDue(script, old(|trace|), true, plan.restoring))
    {
      ok, watch := StopAndRecord(plan);
    }

    /** The same, with what becomes of the station and the record. */
    method StopAndRecord(plan: Plan) returns (ok: bool, ghost watch: Watch)
      requires Valid() && !inRecovery && mem.Some? && world.disk == mem && mem.value == plan.start
      requires FreshPlan(world, plan)
      modifies this`world, this`trace, this`mem, this`saves
      ensures Valid() && Continues(old(trace), trace) && |trace| > old(|trace|)
      ensures watch == WatchFrom(trace, old(|trace|), old(world)) && SafeSince(trace, watch, plan)
      ensures mem.Some? && mem.value == plan.start.(phase := mem.value.phase)
      ensures world.env == old(world.env) && world.volumes.Keys == old(world).volumes.Keys
      ensures world.disk.Some? && world.disk.value.volumes == plan.start.volumes
      ensures |saves| <= |old(saves)| + 1
      ensures ok ==> |saves| > 0 && saves[|saves| - 1].state == mem.value
      ensures ok ==> world.disk == mem && NoneHealthy(world) && Apart(world, plan)
      ensures ok ==> Guarded(Strictly(watch, |trace| - 1), plan) && FoundRecordedFrom(trace, |trace| - 1, plan)
      ensures plan.restoring ==> FirstMoments(old(world), trace, script, old(|trace|))
      ensures ok ==> |saves| == |old(saves)| + 1 && |trace| == old(|trace|) + QuietSteps(plan)
      ensures ok <==> BeginsWell(script, old(|trace|), plan)
      ensures world.main.station ==
                if Took(old(Now())) then Halted(old(world).main.station) else old(world).main.station
      ensures if StopsGoWell(script, old(|trace|), plan.restoring)
              then |trace| == old(|trace|) + QuietSteps(plan) && Changing(mem.value.phase)
              else mem == old(mem)
      ensures world.disk == if NotBegun(script, old(|trace|), plan.restoring) then old(world.disk) else mem
    {
      ok, watch := StopAll(plan);
      if ok {
        ok := RecordFirst(plan, watch, old(world), old(|trace|));
      }
    }

    /** The save of RESTORING or ROLLING_BACK, in a rollback that began with step `n`, in the world `before`. */
    method RecordFirst(plan: Plan, ghost watch: Watch, ghost before: World, ghost n: nat) returns (ok: bool)
      requires Guarded(watch, plan) && mem == Some(plan.start) && world.disk == mem && Apart(world, plan)
      requires plan.restoring ==> |trace| == n + 1 && WrittenAt(before, trace, script, n)
      modifies this`world, this`trace, this`mem, this`saves
      ensures Guarded(watch, plan) && Continues(old(trace), trace) && |trace| == old(|trace|) + 1
      ensures mem == Some(plan.start.(phase := mem.value.phase)) && Changing(mem.value.phase)
      ensures SameContainers(old(world), world) && world.volumes.Keys == old(world).volumes.Keys
      ensures world.env == old(world.env) && Apart(world, plan)
      ensures ok == !old(Now()).raises && |saves| == |old(saves)| + 1 && saves[|saves| - 1].state == mem.value
      ensures world.disk == if Took(old(Now())) then mem else old(world.disk)
      ensures ok ==> && world.disk == mem && NoneHealthy(world) && Guarded(Strictly(watch, |trace| - 1), plan)
                     && FoundRecordedFrom(trace, |trace| - 1, plan)
      ensures plan.restoring ==> FirstMoments(before, trace, script, n)
    {
      ok := RecordBeginning(plan, watch);
      if plan.restoring {
        TwoMoments(before, old(trace), old(world), trace, world, script, n);
      }
    }

    /** The save of RESTORING or ROLLING_BACK. */
    method RecordBeginning(plan: Plan, ghost watch: Watch) returns (ok: bool)
      requires Guarded(watch, plan) && mem == Some(plan.start) && world.disk == mem
      modifies this`world, this`trace, this`mem, this`saves
      ensures Guarded(watch, plan) && Continues(old(trace), trace) && |trace| == old(|trace|) + 1
      ensures mem == Some(plan.start.(phase := mem.value.phase)) && Changing(mem.value.phase)
      ensures SameContainers(old(world), world) && world.volumes.Keys == old(world).volumes.Keys
      ensures NoiseIn(old(world), world, old(Now()).noise)
      ensures world.env == old(world.env) && world.backups == old(world.backups)
      ensures ok == !old(Now()).raises && saves == old(saves) + [Saved(mem.value, Took(old(Now())), !ok)]
      ensures world.disk == if Took(old(Now())) then mem else old(world.disk)
      ensures ok ==> && world.disk == mem && NoneHealthy(world) && Guarded(Strictly(watch, |trace| - 1), plan)
                     && FoundRecordedFrom(trace, |trace| - 1, plan)
      ensures Adrift(world) <==> old(Adrift(world)) && !Took(old(Now()))
    {
      ok := WatchedSave(mem.value.(phase := if plan.restoring then Restoring else RollingBack), plan, watch);
      if ok {
        WatchedStrictly(plan, watch);
      }
    }

    lemma WatchedStrictly(plan: Plan, watch: Watch)
      requires Guarded(watch, plan) && FoundRecorded(world, plan)
      ensures Guarded(Strictly(watch, |trace| - 1), plan) && FoundRecordedFrom(trace, |trace| - 1, plan)
    {
      assert Safe(At(trace, |trace| - 1), watch, plan);
    }

    /** Creates the volumes of a restore and unpacks the data archive. */
    method PrepareVolumes(plan: Plan, ghost watch: Watch) returns (ok: bool)
      requires Guarded(watch, plan) && plan.restoring && world.disk == mem && mem.value.volumes == plan.start.volumes
      modifies this`world, this`trace
      ensures Guarded(watch, plan) && Continues(old(trace), trace)
      ensures SameRecords(old(world), world) && SameContainers(old(world), world)
      ensures ok ==> |trace| == old(|trace|) + 3
      ensures ok ==> plan.volumes.pg in world.volumes && plan.volumes.data in world.volumes
      ensures Smooth(script, plan.prior, old(|trace|), 3) ==> ok
    {
      ok := WatchedVolume(plan.volumes.pg, plan, watch);
      if ok { ok := WatchedVolume(plan.volumes.data, plan, watch); }
      if ok { ok := WatchedUnpack(plan, watch); }
    }

    method WatchedVolume(name: string, plan: Plan, ghost watch: Watch) returns (ok: bool)
      requires Guarded(watch, plan) && plan.restoring && world.disk == mem && mem.value.volumes == plan.start.volumes
      modifies this`world, this`trace
      ensures Guarded(watch, plan) && Continues(old(trace), trace) && |trace| == old(|trace|) + 1
      ensures ok == !old(Now()).raises
      ensures SameRecords(old(world), world) && SameContainers(old(world), world)
      ensures old(world).volumes.Keys <= world.volumes.Keys && (ok ==> name in world.volumes)
    {
      ok := EnsureVolume(name);
      SafeStep(old(trace), old(world), trace, world, watch, plan);
    }

    method WatchedUnpack(plan: Plan, ghost watch: Watch) returns (ok: bool)
      requires Guarded(watch, plan) && plan.restoring && world.disk == mem && mem.value.volumes == plan.start.volumes
      modifies this`world, this`trace
      ensures Guarded(watch, plan) && Continues(old(trace), trace) && |trace| == old(|trace|) + 1
      ensures ok <==> !old(Now()).raises && plan.volumes.data in world.volumes
      ensures SameRecords(old(world), world) && SameContainers(old(world), world)
      ensures world.volumes.Keys == old(world).volumes.Keys
    {
      ok := Fill(plan.volumes.data);
      SafeStep(old(trace), old(world), trace, world, watch, plan);
    }

    /** The steps from the trial to the switching save. */
    static function AttemptSteps(plan: Plan): nat {
      TrialSteps(plan) + 7
    }

    /** The body of the `try`: recovery project first, then the installation itself. */
    method Attempt(
      plan: Plan, env: Env, ghost watch: Watch, ghost good: bool, ghost stuck: bool, ghost commit: nat,
      ghost back: nat, ghost keys: set<string>) returns (ok: bool)
      requires Foreseen(plan, env, good, stuck, commit, back, keys)
      requires Watching(watch, plan) && inRecovery && mem.value.previous == Some(plan.prior)
      requires mem.value == plan.start.(phase := mem.value.phase)
      requires EnvInv(env) && world.env.Some? && env.kept == world.env.value.kept
      modifies this
      ensures Guarded(watch, plan) && Continues(old(trace), trace) && !Adrift(world)
      ensures ok ==> RolledBack(plan)
      ensures !ok ==> SwitchRaised(old(saves), saves, world.disk, plan) || NoSwitch(old(saves), saves, world.disk, plan)
      ensures good ==> Committed(ok, old(saves), commit, plan)
      ensures stuck ==> !ok && Stuck(back, plan, keys)
    {
      ok := TryAndRetire(plan, env, watch);
      assert stuck ==> !ok && Stuck(back, plan, keys);
      if ok {
        assert good ==> Ready(plan, env) && Smooth(script, plan.prior, |trace|, 6) && commit == |trace| + 6;
        ok := CommitRecovery(plan, env, watch);
      }
    }

    /** The trial's readback, in step `n`, was the last step, and its project still runs; without a restore the volumes
        are still those of `keys`. */
    predicate Stuck(n: nat, plan: Plan, keys: set<string>)
      reads this
    {
      && |trace| == n + 1 && OnVolumes(world.recovery, plan.volumes) && mem.Some?
      && mem.value == plan.start.(phase := mem.value.phase, volumes := mem.value.volumes)
      && (!plan.restoring ==> world.volumes.Keys == keys)
    }

    /** The same after the failure was to be recorded. */
    predicate GivenUp(n: nat, plan: Plan, keys: set<string>)
      reads this
    {
      && |trace| == n + 2 && OnVolumes(world.recovery, plan.volumes)
      && mem == Some(plan.start.(phase := Failed)) && (Took(script(n + 1)) ==> world.disk == mem)
      && (!plan.restoring ==> world.volumes.Keys == keys)
    }

    /** The trial, and taking the installation's own containers down after it. */
    method TryAndRetire(plan: Plan, env: Env, ghost watch: Watch) returns (ok: bool)
      requires Watching(watch, plan) && inRecovery
      requires EnvInv(env) && world.env.Some? && env.kept == world.env.value.kept
      modifies this`world, this`trace, this`mem, this`inRecovery
      ensures Guarded(watch, plan) && Continues(old(trace), trace) && !Adrift(world)
      ensures mem.value == old(mem).value.(volumes := mem.value.volumes)
      ensures world.env.Some? && env.kept == world.env.value.kept && world.disk.value.volumes == plan.start.volumes
      ensures ok ==> Watching(watch, plan) && !inRecovery && mem.value.volumes == plan.volumes
      ensures ok ==> |trace| == old(|trace|) + TrialSteps(plan) + 1 && world.volumes.Keys == old(world).volumes.Keys
      ensures old(Ready(plan, env)) && Smooth(script, plan.prior, old(|trace|), TrialSteps(plan) + 1) ==> ok
      ensures old(Ready(plan, env)) && RaisesAfter(script, plan.prior, old(|trace|), ReadbackStep(plan)) ==>
                && !ok && |trace| == old(|trace|) + ReadbackStep(plan) + 1 && OnVolumes(world.recovery, plan.volumes)
                && world.volumes.Keys == old(world).volumes.Keys
    {
      ok := TryRecovery(plan, env, watch);
      if ok { ok := TakeDownMain(plan, watch); }
    }

    /** The `finally` of a rollback that did not switch: FAILED, on the original volumes. */
    method RecordFailure(plan: Plan, ghost watch: Watch)
      requires Guarded(watch, plan) && ValidVolumes(plan.start.volumes)
      modifies this`world, this`trace, this`mem, this`saves
      ensures Guarded(watch, plan) && Continues(old(trace), trace)
      ensures mem.value == old(mem).value.(volumes := plan.start.volumes, phase := Failed)
      ensures |trace| == old(|trace|) + 1 && world.volumes.Keys == old(world).volumes.Keys
      ensures saves == old(saves) + [Saved(mem.value, Took(old(Now())), old(Now()).raises)]
      ensures world.disk == if Took(old(Now())) then mem else old(world.disk)
      ensures world.env == old(world.env) && SameContainers(old(world), world)
    {
      var recorded := WatchedSave(mem.value.(volumes := plan.start.volumes, phase := Failed), plan, watch);
    }

    /** What a rollback has come to when it begins with its trial. */
    ghost predicate Poised(plan: Plan, env: Env, watch: Watch)
      reads this
    {
      && Guarded(watch, plan) && Apart(world, plan) && world.disk == mem && NoneHealthy(world)
      && mem.value.previous == Some(plan.prior) && mem.value.volumes == plan.start.volumes
      && ValidVolumes(plan.volumes) && EnvInv(env) && world.env.Some? && env.kept == world.env.value.kept
    }

    /** From here on the compose commands address the recovery project. */
    method AttemptApart(
      plan: Plan, env: Env, ghost watch: Watch, ghost good: bool, ghost stuck: bool, ghost commit: nat,
      ghost back: nat, ghost keys: set<string>) returns (ok: bool)
      requires Poised(plan, env, watch) && mem.value == plan.start.(phase := mem.value.phase)
      requires Foreseen(plan, env, good, stuck, commit, back, keys)
      modifies this
      ensures Guarded(watch, plan) && Continues(old(trace), trace) && !Adrift(world)
      ensures ok ==> RolledBack(plan)
      ensures !ok ==> SwitchRaised(old(saves), saves, world.disk, plan) || NoSwitch(old(saves), saves, world.disk, plan)
      ensures good ==> Committed(ok, old(saves), commit, plan)
      ensures stuck ==> !ok && Stuck(back, plan, keys)
    {
      EnterRecovery(plan, env, watch, good, stuck, commit, back, keys);
      ok := Attempt(plan, env, watch, good, stuck, commit, back, keys);
    }

    method EnterRecovery(
      plan: Plan, env: Env, ghost watch: Watch, ghost good: bool, ghost stuck: bool, ghost commit: nat,
      ghost back: nat, ghost keys: set<string>)
      requires Poised(plan, env, watch) && Foreseen(plan, env, good, stuck, commit, back, keys)
      modifies this`inRecovery
      ensures Watching(watch, plan) && inRecovery && Foreseen(plan, env, good, stuck, commit, back, keys)
    {
      inRecovery := true;
    }

    method LeaveRecovery(plan: Plan, ghost watch: Watch)
      requires Guarded(watch, plan)
      modifies this`inRecovery
      ensures Guarded(watch, plan) && !inRecovery
    {
      inRecovery := false;
    }

    /** The end of the `finally`. */
    method Finish(
      ok: bool, plan: Plan, ghost before: seq<Saved>, ghost commit: nat, ghost back: nat, ghost k: nat,
      ghost keys: set<string>, ghost watch: Watch)
      requires Guarded(watch, plan) && ValidVolumes(plan.start.volumes)
      requires |before| == k + 1 && !before[k].state.phase.Healthy?
      requires !ok ==> SwitchRaised(before, saves, world.disk, plan) || NoSwitch(before, saves, world.disk, plan)
      modifies this`world, this`trace, this`mem, this`saves, this`inRecovery
      ensures Guarded(watch, plan) && Continues(old(trace), trace) && !inRecovery && world.env == old(world.env)
      ensures ok ==> world == old(world) && mem == old(mem) && saves == old(saves)
      ensures !ok ==> mem.value.volumes == plan.start.volumes && LeftRecord(world.disk, saves, k, plan)
      ensures old(Committed(ok, before, commit, plan)) ==> Reached(ok, commit, k, plan)
      ensures !ok && old(Stuck(back, plan, keys)) ==> GivenUp(back, plan, keys)
      ensures Adrift(world) ==> old(Adrift(world))
    {
      if !ok {
        Fail(plan, before, commit, back, k, keys, watch);
      }
      LeaveRecovery(plan, watch);
    }

    /** FAILED is recorded, and what is left of the record follows. */
    method Fail(
      plan: Plan, ghost before: seq<Saved>, ghost commit: nat, ghost back: nat, ghost k: nat,
      ghost keys: set<string>, ghost watch: Watch)
      requires Guarded(watch, plan) && ValidVolumes(plan.start.volumes)
      requires |before| == k + 1 && !before[k].state.phase.Healthy?
      requires SwitchRaised(before, saves, world.disk, plan) || NoSwitch(before, saves, world.disk, plan)
      modifies this`world, this`trace, this`mem, this`saves
      ensures Guarded(watch, plan) && Continues(old(trace), trace) && world.env == old(world.env)
      ensures mem.value.volumes == plan.start.volumes && LeftRecord(world.disk, saves, k, plan)
      ensures old(Committed(false, before, commit, plan)) ==> Reached(false, commit, k, plan)
      ensures old(Stuck(back, plan, keys)) ==> GivenUp(back, plan, keys)
      ensures Adrift(world) ==> old(Adrift(world))
    {
      RecordFailure(plan, watch);
      FinallyLeaves(before, old(saves), old(world.disk), saves[|saves| - 1], world.disk, plan);
    }

    /** What the steps of the `try` can come to: if they are `good` the switching save is step `commit`; if they are
        `stuck`, it is so at step `back`. */
    ghost predicate Foreseen(plan: Plan, env: Env, good: bool, stuck: bool, commit: nat, back: nat, keys: set<string>)
      reads this
    {
      && (good ==> && Ready(plan, env) && Smooth(script, plan.prior, |trace|, AttemptSteps(plan))
                   && commit == |trace| + AttemptSteps(plan))
      && (stuck ==> && Ready(plan, env) && RaisesAfter(script, plan.prior, |trace|, ReadbackStep(plan))
                    && back == |trace| + ReadbackStep(plan) && (!plan.restoring ==> world.volumes.Keys == keys))
    }

    /** The `try` and `finally` of a rollback. */
    method Recover(
      plan: Plan, env: Env, ghost watch: Watch, ghost k: nat, ghost good: bool, ghost stuck: bool,
      ghost commit: nat, ghost back: nat, ghost keys: set<string>) returns (ok: bool)
      requires Poised(plan, env, watch) && !inRecovery && mem.value == plan.start.(phase := mem.value.phase)
      requires |saves| == k + 1 && !saves[k].state.phase.Healthy?
      requires Foreseen(plan, env, good, stuck, commit, back, keys)
      modifies this
      ensures Guarded(watch, plan) && Continues(old(trace), trace) && !inRecovery && !Adrift(world)
      ensures !ok ==> mem.value.volumes == plan.start.volumes
      ensures ok ==> RolledBack(plan)
      ensures !ok ==> LeftRecord(world.disk, saves, k, plan)
      ensures good ==> Reached(ok, commit, k, plan)
      ensures stuck ==> !ok && GivenUp(back, plan, keys)
    {
      ghost var before := saves;
      ok := AttemptApart(plan, env, watch, good, stuck, commit, back, keys);
      Finish(ok, plan, before, commit, back, k, keys, watch);
    }

    /** The switching save was reached, at step `n`: it decided the success, and the next one what is recorded if
        it raised.  The environment names the planned volumes. */
    predicate Reached(ok: bool, n: nat, first: nat, plan: Plan)
      reads this
    {
      && ok == !script(n).raises && world.env.Some? && world.env.value.volumes == plan.volumes
      && (!ok ==> SavedAt(saves, first, plan, script(n), script(n + 1)) && mem.Some? && mem.value.phase.Failed?)
    }

    static function BeginSteps(plan: Plan): nat {
      QuietSteps(plan) + if plan.restoring then 3 else 0
    }

    /** The part of a rollback before the `try`: what must not run is stopped, and new volumes are filled. */
    method Begin(plan: Plan) returns (ok: bool)
      requires Valid() && !inRecovery && mem.Some? && world.disk == mem && mem.value == plan.start
      requires FreshPlan(world, plan) && (plan.restoring || plan.volumes == plan.start.volumes)
      modifies this`world, this`trace, this`mem, this`saves
      ensures Valid() && Continues(old(trace), trace) && |trace| > old(|trace|)
      ensures Course(old(world), trace, script, old(|trace|), plan)
      ensures mem.Some? && mem.value == plan.start.(phase := mem.value.phase) && world.env == old(world.env)
      ensures world.disk.Some? && world.disk.value.volumes == plan.start.volumes && |saves| <= |old(saves)| + 1
      ensures ok ==> Underway(plan, old(world), old(|trace|), old(|trace|) + QuietSteps(plan) - 1, |old(saves)|)
      ensures BeginsWell(script, old(|trace|), plan) ==>
                FoundRecordedFrom(trace, old(|trace|) + QuietSteps(plan) - 1, plan)
      ensures ok ==> |trace| == old(|trace|) + BeginSteps(plan) && BeginsWell(script, old(|trace|), plan)
      ensures ok && plan.restoring ==> plan.volumes.pg in world.volumes && plan.volumes.data in world.volumes
      ensures ok && !plan.restoring ==> world.volumes.Keys == old(world).volumes.Keys
      ensures Smooth(script, plan.prior, old(|trace|), BeginSteps(plan)) ==> ok
      ensures Adrift(world) <==> Stranded(old(world), script, old(|trace|), true, plan.restoring)
      ensures Adrift(world) ==>
                !ok && (HandlerRecords() <==> FailureDue(script, old(|trace|), true, plan.restoring))
    {
      ghost var watch;
      ok, watch := Quiesce(plan);
      if ok && plan.restoring {
        ok := PrepareApart(plan, old(world), old(|trace|));
      }
    }

    /** The new volumes of a restore that began with step `n`, in the world `before`. */
    method PrepareApart(plan: Plan, ghost before: World, ghost n: nat) returns (ok: bool)
      requires n < |trace| && Course(before, trace, script, n, plan)
      requires Guarded(Strictly(WatchFrom(trace, n, before), |trace| - 1), plan)
      requires plan.restoring && world.disk == mem && mem.value.volumes == plan.start.volumes
      modifies this`world, this`trace
      ensures Valid() && Continues(old(trace), trace) && Course(before, trace, script, n, plan)
      ensures Guarded(Strictly(WatchFrom(trace, n, before), old(|trace|) - 1), plan)
      ensures FoundRecordedFrom(trace, old(|trace|) - 1, plan)
      ensures SameRecords(old(world), world) && SameContainers(old(world), world)
      ensures ok ==> |trace| == old(|trace|) + 3
      ensures ok ==> plan.volumes.pg in world.volumes && plan.volumes.data in world.volumes
      ensures Smooth(script, plan.prior, old(|trace|), 3) ==> ok
    {
      ok := PrepareVolumes(plan, Strictly(WatchFrom(trace, n, before), |trace| - 1));
      CourseGoesOn(before, old(trace), trace, script, n, old(|trace|) - 1, plan);
    }

    /** The steps up to the one that records the beginning do not raise. */
    static predicate BeginsWell(script: nat -> Outcome, n: nat, plan: Plan) {
      StopsGoWell(script, n, plan.restoring) && !script(n + QuietSteps(plan) - 1).raises
    }

    /** The steps of a rollback before the switching save. */
    static function RollbackSteps(plan: Plan): nat {
      BeginSteps(plan) + AttemptSteps(plan)
    }

    /** The one of them that reads the trial back. */
    static function BackStep(plan: Plan): nat {
      BeginSteps(plan) + ReadbackStep(plan)
    }

    /** What a rollback needs besides steps that go well. */
    ghost predicate CanRollBack(plan: Plan, kept: seq<string>)
      reads this
    {
      && Acceptable(kept, plan.prior, plan.volumes, root)
      && (!plan.restoring ==> plan.volumes.pg in world.volumes && plan.volumes.data in world.volumes)
    }

    /** What a rollback to `p` comes to by how its steps go, if it can: it began with step `n`, after `k` saves, when
        the volumes were those of `keys`. */
    ghost predicate Progressed(can: bool, ok: bool, n: nat, k: nat, keys: set<string>, p: Plan)
      reads this
    {
      can ==>
        && (Smooth(script, p.prior, n, RollbackSteps(p)) ==> Reached(ok, n + RollbackSteps(p), k, p))
        && (RaisesAfter(script, p.prior, n, BackStep(p)) ==> !ok && GivenUp(n + BackStep(p), p, keys))
    }

    /** What a rollback to `p` keeps at every moment and leaves at the end: it began with step `n`, after `k` saves, in
        the world `before`. */
    ghost predicate Followed(ok: bool, n: nat, k: nat, before: World, p: Plan)
      reads this
    {
      && before.disk == Some(p.start) && p.start.previous == Some(p.prior)
      && Course(before, trace, script, n, p) && mem.Some?
      && (if ok then RolledBack(p)
          else mem.value.volumes == p.start.volumes && LeftRecord(world.disk, saves, k, p))
    }

    /** A rollback from its first effect on.  At every moment `state.json` names the original volumes until the one
        record that switches phase, release and volumes together, and a power loss leaves either such a record or one
        that it could have left before, the latter no more once the beginning is recorded without an error.
        If before it no volume was mounted by two running databases, none ever is.  If before it no running station of
        a recovery project could write to the original volumes, a restore leaves what they held since the station
        stopped; `RestoreIsWrittenTo` says why this is the exact condition.
        A rollback that fails leaves the original volumes recorded, with one exception: `LeftRecord`.  If its
        steps go well it succeeds, unless the switching save raises; and then the outcomes of that save and of
        the next decide what is recorded. */
    method RunRollback(plan: Plan, env: Env) returns (ok: bool)
      requires Valid() && !inRecovery && mem.Some? && world.disk == mem && mem.value == plan.start
      requires plan.start.previous == Some(plan.prior) && ValidVolumes(plan.volumes)
      requires plan.restoring || plan.volumes == plan.start.volumes
      requires FreshPlan(world, plan)
      requires EnvInv(env) && world.env.Some? && env.kept == world.env.value.kept
      modifies this
      ensures Valid() && Continues(old(trace), trace) && !inRecovery
      ensures Followed(ok, old(|trace|), |old(saves)|, old(world), plan)
      ensures Progressed(old(CanRollBack(plan, env.kept)), ok, old(|trace|), |old(saves)|,
                         old(world).volumes.Keys, plan)
      ensures Adrift(world) <==> Stranded(old(world), script, old(|trace|), true, plan.restoring)
      ensures Adrift(world) ==>
                !ok && (HandlerRecords() <==> FailureDue(script, old(|trace|), true, plan.restoring))
      ensures BeginsWell(script, old(|trace|), plan) ==>
                FoundRecordedFrom(trace, old(|trace|) + QuietSteps(plan) - 1, plan)
    {
      ghost var can := CanRollBack(plan, env.kept);
      ghost var m := |trace| + QuietSteps(plan) - 1;
      ok := SetOut(plan, env, can, m);
      if ok {
        ok := Proceed(plan, env, can, old(world), old(|trace|), m, |old(saves)|);
      }
    }

    /** `Begin`, and what is left when it fails. */
    method SetOut(plan: Plan, env: Env, ghost can: bool, ghost m: nat) returns (ok: bool)
      requires Valid() && !inRecovery && mem.Some? && world.disk == mem && mem.value == plan.start
      requires plan.start.previous == Some(plan.prior) && FreshPlan(world, plan)
      requires plan.restoring || plan.volumes == plan.start.volumes
      requires m == |trace| + QuietSteps(plan) - 1 && can == CanRollBack(plan, env.kept)
      modifies this`world, this`trace, this`mem, this`saves
      ensures Valid() && Continues(old(trace), trace) && world.env == old(world.env)
      ensures ok ==> |saves| == |old(saves)| + 1 && Underway(plan, old(world), old(|trace|), m, |old(saves)|)
      ensures ok ==> |trace| == old(|trace|) + BeginSteps(plan) && (can ==> Ready(plan, env))
      ensures ok ==> !plan.restoring ==> world.volumes.Keys == old(world).volumes.Keys
      ensures !ok ==> Followed(false, old(|trace|), |old(saves)|, old(world), plan)
      ensures !ok ==> Progressed(can, false, old(|trace|), |old(saves)|, old(world).volumes.Keys, plan)
      ensures BeginsWell(script, old(|trace|), plan) ==> FoundRecordedFrom(trace, m, plan)
      ensures ok ==> !Stranded(old(world), script, old(|trace|), true, plan.restoring)
      ensures Adrift(world) <==> Stranded(old(world), script, old(|trace|), true, plan.restoring)
      ensures Adrift(world) ==>
                !ok && (HandlerRecords() <==> FailureDue(script, old(|trace|), true, plan.restoring))
    {
      ok := Begin(plan);
      if !ok {
        NeverTried(can, old(|trace|), |old(saves)|, old(world), plan);
      }
    }

    /** A rollback that did not come to its `try`. */
    lemma NeverTried(can: bool, n: nat, k: nat, before: World, p: Plan)
      requires before.disk == Some(p.start) && p.start.previous == Some(p.prior)
      requires Course(before, trace, script, n, p) && mem.Some? && mem.value.volumes == p.start.volumes
      requires world.disk.Some? && world.disk.value.volumes == p.start.volumes && |saves| <= k + 1
      requires !Smooth(script, p.prior, n, BeginSteps(p))
      ensures Followed(false, n, k, before, p) && Progressed(can, false, n, k, before.volumes.Keys, p)
    {
      EarlierSteps(script, p.prior, n, BeginSteps(p), AttemptSteps(p));
      EarlierSteps(script, p.prior, n, BeginSteps(p), ReadbackStep(p));
    }

    /** A rollback that began with step `n`, after `k` saves, in the world `before`, and recorded its beginning in step
        `m`, comes to its `try`. */
    ghost predicate Underway(plan: Plan, before: World, n: nat, m: nat, k: nat)
      reads this
    {
      && n <= m < |trace| && Course(before, trace, script, n, plan) && !inRecovery && Apart(world, plan)
      && Guarded(Strictly(WatchFrom(trace, n, before), m), plan) && before.disk == Some(plan.start)
      && world.disk == mem && NoneHealthy(world) && mem.value == plan.start.(phase := mem.value.phase)
      && |saves| == k + 1 && !saves[k].state.phase.Healthy?
    }

    /** The `try` and `finally` in such a rollback. */
    method Proceed(
      plan: Plan, env: Env, ghost can: bool, ghost before: World, ghost n: nat, ghost m: nat, ghost k: nat)
      returns (ok: bool)
      requires Underway(plan, before, n, m, k) && plan.start.previous == Some(plan.prior)
      requires ValidVolumes(plan.volumes) && EnvInv(env) && world.env.Some? && env.kept == world.env.value.kept
      requires |saves| == k + 1 && |trace| == n + BeginSteps(plan) && (can ==> Ready(plan, env))
      requires !plan.restoring ==> world.volumes.Keys == before.volumes.Keys
      modifies this
      ensures Valid() && Continues(old(trace), trace) && !inRecovery && !Adrift(world)
      ensures Followed(ok, n, k, before, plan) && FoundRecordedFrom(trace, m, plan)
      ensures Progressed(can, ok, n, k, before.volumes.Keys, plan)
    {
      ghost var good := can && Smooth(script, plan.prior, n, RollbackSteps(plan));
      ghost var stuck := can && RaisesAfter(script, plan.prior, n, BackStep(plan));
      ghost var commit, back, keys := n + RollbackSteps(plan), n + BackStep(plan), before.volumes.Keys;
      LaterSteps(script, plan.prior, n, BeginSteps(plan), |trace|, AttemptSteps(plan));
      LaterSteps(script, plan.prior, n, BeginSteps(plan), |trace|, ReadbackStep(plan));
      ok := RecoverOn(plan, env, before, n, m, k, good, stuck, commit, back, keys);
      MakesProgress(can, good, stuck, ok, n, commit, back, k, keys, plan);
    }

    lemma MakesProgress(
      can: bool, good: bool, stuck: bool, ok: bool, n: nat, commit: nat, back: nat, k: nat, keys: set<string>, p: Plan)
      requires good == (can && Smooth(script, p.prior, n, RollbackSteps(p))) && commit == n + RollbackSteps(p)
      requires stuck == (can && RaisesAfter(script, p.prior, n, BackStep(p))) && back == n + BackStep(p)
      requires good ==> Reached(ok, commit, k, p)
      requires stuck ==> !ok && GivenUp(back, p, keys)
      ensures Progressed(can, ok, n, k, keys, p)
    {
    }

    /** `Recover` in such a rollback. */
    method RecoverOn(
      plan: Plan, env: Env, ghost before: World, ghost n: nat, ghost m: nat, ghost k: nat, ghost good: bool,
      ghost stuck: bool, ghost commit: nat, ghost back: nat, ghost keys: set<string>) returns (ok: bool)
      requires |saves| == k + 1 && Underway(plan, before, n, m, k) && plan.start.previous == Some(plan.prior)
      requires ValidVolumes(plan.volumes) && EnvInv(env) && world.env.Some? && env.kept == world.env.value.kept
      requires Foreseen(plan, env, good, stuck, commit, back, keys)
      modifies this
      ensures Valid() && Continues(old(trace), trace) && !inRecovery && !Adrift(world)
      ensures Followed(ok, n, k, before, plan) && FoundRecordedFrom(trace, m, plan)
      ensures good ==> Reached(ok, commit, k, plan)
      ensures stuck ==> !ok && GivenUp(back, plan, keys)
    {
      ok := Recover(plan, env, Strictly(WatchFrom(trace, n, before), m), k, good, stuck, commit, back, keys);
      CourseGoesOn(before, old(trace), trace, script, n, m, plan);
    }

    /** The checks of `rollback` that only read: the release to go back to and the backup's `.env`. */
    method RollbackTarget(args: Args) returns (r: Option<(Release, Env)>)
      requires WorldInv(world) && mem == world.disk
      ensures r.Some? <==> Targeted(world, args)
      ensures r.Some? ==>
                && mem.Some? && mem.value.previous == Some(r.value.0) && args.target == Some(r.value.0.tag)
                && EnvInv(r.value.1) && world.env.Some? && r.value.1.kept == world.env.value.kept
                && (args.restore.Some? ==> args.confirmLoss && args.restore.value in world.backups
                                           && world.backups[args.restore.value] == Backup(r.value.0, r.value.1))
                && (args.restore.None? ==> args.compatible)
    {
      r := None;
      if args.target.None? || mem.None? || mem.value.previous.None? || mem.value.readback.None? {
        return;
      }
      var prior := mem.value.previous.value;
      var chosen := if args.restore.Some? then args.restore else mem.value.backup;
      if prior.tag != args.target.value || chosen.None? || chosen.value !in world.backups {
        return;
      }
      var backup := world.backups[chosen.value];
      if || backup.release != prior
         || (args.restore.Some? && !args.confirmLoss)
         || (args.restore.None? && !args.compatible) {
        return;
      }
      return Some((prior, backup.env));
    }

    /** `rollback`.  Returns the plan it worked to, if it got as far as touching anything. */
    method DoRollback(args: Args) returns (ok: bool, plan: Option<Plan>)
      requires Valid() && mem == world.disk && !inRecovery
      modifies this
      ensures Valid() && Continues(old(trace), trace) && !inRecovery
      ensures plan.None? ==> !ok && mem == old(mem) && world.disk == old(world.disk)
      ensures plan.Some? ==>
                && Followed(ok, old(|trace|), |old(saves)|, old(world), plan.value)
                && plan.value.restoring == args.restore.Some?
                && args.target == Some(plan.value.prior.tag)
                && (if plan.value.restoring
                    then plan.value.volumes == script(old(|trace|)).volumes != plan.value.start.volumes
                    else plan.value.volumes == plan.value.start.volumes)
      ensures plan.Some? <==> SetsOut(old(world), script, old(|trace|), args)
      ensures Adrift(world) <==>
                Stranded(old(world), script, StopAt(old(|trace|), args), plan.Some?, args.restore.Some?)
      ensures Adrift(world) ==>
                !ok && (HandlerRecords() <==>
                        FailureDue(script, StopAt(old(|trace|), args), plan.Some?, args.restore.Some?))
      ensures plan.Some? && old(world).env.Some? ==>
                Progressed(old(CanRollBack(plan.value, world.env.value.kept)), ok, StopAt(old(|trace|), args),
                           |old(saves)|, old(world).volumes.Keys, plan.value)
    {
      ok, plan := false, None;
      var target := RollbackTarget(args);
      if target.None? {
        return;
      }
      var restoring := args.restore.Some?;
      var volumes := if restoring then Now().volumes else mem.value.volumes;
      var p := Plan(mem.value, target.value.0, volumes, restoring);
      var sets;
      ok, sets := RollbackTo(p, target.value.1, StopAt(|trace|, args), world.env.value.kept);
      plan := if sets then Some(p) else None;
    }

    /** A rollback sets out from a record and back to the release before it. */
    predicate Sound(p: Plan)
      reads this
    {
      && mem == Some(p.start) && world.disk == mem && p.start.previous == Some(p.prior)
      && p.volumes == if p.restoring then Now().volumes else p.start.volumes
    }

    /** The part of `rollback` after the checks that only read, on new volumes or on the same ones. */
    method RollbackTo(p: Plan, env: Env, ghost n: nat, ghost kept: seq<string>) returns (ok: bool, sets: bool)
      requires Valid() && !inRecovery && Sound(p) && n == if p.restoring then |trace| else |trace| + 1
      requires EnvInv(env) && world.env.Some? && env.kept == world.env.value.kept == kept
      modifies this
      ensures Valid() && Continues(old(trace), trace) && !inRecovery
      ensures sets <==> if p.restoring then NewVolumes(old(world), p.volumes) else !old(Now()).raises
      ensures !sets ==> !ok && mem == old(mem) && world.disk == old(world.disk)
      ensures sets ==> Followed(ok, old(|trace|), |old(saves)|, old(world), p)
      ensures sets ==> Progressed(old(CanRollBack(p, kept)), ok, n, |old(saves)|, old(world).volumes.Keys, p)
      ensures Adrift(world) <==> Stranded(old(world), script, n, sets, p.restoring)
      ensures Adrift(world) ==> !ok && (HandlerRecords() <==> FailureDue(script, n, sets, p.restoring))
    {
      if p.restoring {
        ok, sets := RollbackApart(p, env);
      } else {
        ok, sets := RollbackInPlace(p, env);
      }
    }

    /** A rollback on new volumes, with random names: one that is in use already counts as a failure to create it. */
    method RollbackApart(p: Plan, env: Env) returns (ok: bool, sets: bool)
      requires Valid() && !inRecovery && Sound(p) && p.restoring
      requires EnvInv(env) && world.env.Some? && env.kept == world.env.value.kept
      modifies this
      ensures Valid() && Continues(old(trace), trace) && !inRecovery
      ensures sets <==> NewVolumes(old(world), p.volumes)
      ensures !sets ==> !ok && mem == old(mem) && world == old(world)
      ensures sets ==> Followed(ok, old(|trace|), |old(saves)|, old(world), p)
      ensures sets ==>
                Progressed(old(CanRollBack(p, env.kept)), ok, old(|trace|), |old(saves)|, old(world).volumes.Keys, p)
      ensures Adrift(world) <==> Stranded(old(world), script, old(|trace|), sets, true)
      ensures Adrift(world) ==> !ok && (HandlerRecords() <==> FailureDue(script, old(|trace|), sets, true))
    {
      ok, sets := false, NewVolumes(world, p.volumes);
      if sets {
        ok := RunRollback(p, env);
      }
    }

    /** A rollback on the same volumes first looks at the schema, to compare it with the proof. */
    method RollbackInPlace(p: Plan, env: Env) returns (ok: bool, sets: bool)
      requires Valid() && !inRecovery && Sound(p) && !p.restoring
      requires EnvInv(env) && world.env.Some? && env.kept == world.env.value.kept
      modifies this
      ensures Valid() && Continues(old(trace), trace) && !inRecovery && |trace| > old(|trace|)
      ensures sets <==> !old(Now()).raises
      ensures !sets ==> !ok && mem == old(mem) && world.disk == old(world.disk)
      ensures SafeSince(trace, WatchFrom(trace, old(|trace|), old(world)), p)
      ensures sets ==> Followed(ok, old(|trace|), |old(saves)|, old(world), p)
      ensures sets ==>
                Progressed(old(CanRollBack(p, env.kept)), ok, old(|trace|) + 1, |old(saves)|,
                           old(world).volumes.Keys, p)
      ensures Adrift(world) <==> Stranded(old(world), script, old(|trace|) + 1, sets, false)
      ensures Adrift(world) ==> !ok && (HandlerRecords() <==> FailureDue(script, old(|trace|) + 1, sets, false))
    {
      sets := External(false);
      ok := false;
      SafeAtStart(trace, old(world), p);
      ghost var first, w := trace, world;
      if sets {
        ok := RunRollback(p, env);
        SafeFromBefore(first, trace, old(world), w, p);
      }
    }

    // -------------------------------------------------------------------------
    // Whole runs
    // -------------------------------------------------------------------------

    /** One invocation of the installer: it loads `state.json`, runs an operation and, if that failed
        in the middle of a change, records FAILED. */
    method Execute(operation: Operation, args: Args) returns (ok: bool)
      requires Valid() && ValidArgs(args)
      modifies this
      ensures Valid() && Continues(old(trace), trace)
      ensures ok && mem.Some? && mem.value.phase.Healthy? ==> world.disk == mem && Serves(world.main, mem.value.release)
      ensures Adrift(world) <==> LeavesAdrift(old(world), script, old(|trace|), operation, args)
      ensures Adrift(world) ==> !ok
    {
      mem, inRecovery := world.disk, false;
      if operation.Rollback? {
        var plan;
        ok, plan := DoRollback(args);
        HandlerDecides(old(world), script, old(|trace|), args);
      } else {
        ok := Operate(operation, args);
      }
      assert Adrift(world) && !HandlerRecords() <==> LeavesAdrift(old(world), script, old(|trace|), operation, args);
      if !ok {
        HandleFailure();
      }
    }

    /** Any operation but `rollback`.  When it leaves HEALTHY recorded without the station, the handler has nothing
        to do. */
    method Operate(operation: Operation, args: Args) returns (ok: bool)
      requires Valid() && ValidArgs(args) && mem == world.disk && !inRecovery && !operation.Rollback?
      modifies this`world, this`trace, this`mem, this`saves
      ensures Valid() && Continues(old(trace), trace)
      ensures ok && mem.Some? && mem.value.phase.Healthy? ==> world.disk == mem && Serves(world.main, mem.value.release)
      ensures Adrift(world) <==> LeavesAdrift(old(world), script, old(|trace|), operation, args)
      ensures Adrift(world) ==> !ok && !HandlerRecords()
    {
      match operation {
        case Install => ok := DoInstall(args);
        case MakeBackup =>
          var dir;
          ok, dir := DoBackup(true);
        case Upgrade => ok := DoUpgrade(args);
        case Uninstall => ok := DoUninstall(args);
      }
    }

    /** The handler in `main` has a failure to record, and that save will replace the file. */
    predicate HandlerRecords()
      reads this
    {
      mem.Some? && Changing(mem.value.phase) && Took(Now())
    }

    /** The handler in `main`. */
    method HandleFailure()
      requires Valid()
      modifies this`world, this`trace, this`mem, this`saves
      ensures Valid() && Continues(old(trace), trace)
      ensures old(mem).Some? && Changing(old(mem).value.phase) ==>
                && mem == Some(old(mem).value.(phase := Failed)) && SameContainers(old(world), world)
                && world.disk == if Took(old(Now())) then mem else old(world.disk)
      ensures !(old(mem).Some? && Changing(old(mem).value.phase)) ==>
                mem == old(mem) && world == old(world) && saves == old(saves)
      ensures Adrift(world) <==> old(Adrift(world) && !HandlerRecords())
    {
      if mem.Some? && Changing(mem.value.phase) {
        var recorded := Save(mem.value.(phase := Failed));
      }
    }

    /** The process is cut off: of everything it did, only what came before remains. */
    method CutOff(at: nat)
      requires Valid() && at < |trace|
      modifies this
      ensures Valid() && |trace| == at + 1 && Continues(trace, old(trace))
    {
      world := trace[at];
      trace := trace[..at + 1];
      mem, inRecovery := None, false;
      ghost var longer := old(trace);
      forall i: nat | i < |trace| ensures At(trace, i) == At(longer, i) {}
      assert GoodTrace(trace);
    }

    /** The machine loses its power and comes back: `d` is what it finds of the record, and of the containers it
        has those of `main` and `recovery`. */
    method LosePower(d: Option<State>, main: Project, recovery: Project)
      requires Valid() && PowerLost(world, AfterPowerLoss(world, d, main, recovery))
      modifies this
      ensures Valid() && |trace| == old(|trace|) + 1 && Continues(old(trace), trace)
      ensures world == AfterPowerLoss(old(world), d, main, recovery)
    {
      var next := AfterPowerLoss(world, d, main, recovery);
      PowerLossKeeps(world, next);
      TraceGrows(trace, next);
      world, trace := next, trace + [next];
      mem, inRecovery := None, false;
    }

    /** The invocation ends as it does: by itself, or after step `at` by a kill or a power loss.  An ending that is
        not possible does not happen. */
    method End(how: Ending, first: nat)
      requires Valid() && first <= |trace|
      modifies this
      ensures Valid() && Continues(old(trace)[..first], trace)
    {
      if !how.Returns? && first <= how.at < |trace| {
        CutOff(how.at);
        assert Continues(old(trace)[..first], trace);
        if how.PowerLoss? && PowerLost(world, AfterPowerLoss(world, how.left, how.main, how.recovery)) {
          LosePower(how.left, how.main, how.recovery);
        }
      }
    }

    /** Any sequence of invocations, each of which may be killed or lose its power after any of its steps, leaves a
        good history: the results about `GoodTrace` hold for every run. */
    method Lifecycle(requests: seq<(Operation, Args, Ending)>)
      requires Valid() && forall r | r in requests :: ValidArgs(r.1)
      modifies this
      ensures Valid() && GoodTrace(trace) && Continues(old(trace), trace)
    {
      for i := 0 to |requests|
        invariant Valid() && Continues(old(trace), trace)
      {
        var (operation, args, ending) := requests[i];
        ghost var before := trace;
        var first := |trace|;
        var ok := Execute(operation, args);
        ghost var whole := trace;
        End(ending, first);
        forall k: nat | k < |old(trace)| ensures At(trace, k) == At(old(trace), k) {
          assert At(whole, k) == At(before, k) && At(whole[..first], k) == At(trace, k);
        }
      }
    }
  }
}
