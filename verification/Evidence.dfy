/** Checking a candidate's evidence: the runtime attestations and every role's observations must cover
    the expanded matrix one to one. */
module Evidence {
  import opened Wrappers
  import opened Sequences
  import opened EvidenceMatrix
  import opened EvidenceExpansion

  const FOUNDATION := "agent-v2-kernel-foundation-e2e"

  const ATTESTATIONS := "runtime-attestation-set"

  /** One runtime tuple.  `payloadOk` is the verdict of the checks on the payload of its profile; the
      identifiers after `actor` are those its profile may name, and a missing identifier is empty. */
  datatype Attestation = Attestation(
    key: Key, profile: string, payloadOk: bool, scenarioExecution: string, actor: Option<string>,
    command: string, controlPlane: string, turn: string, clientToolCall: string, stationToolCall: string,
    contractRun: string, unavailable: string)

  /** `fieldsOk` is the verdict of the checks on required fields, hashes, further bindings and success. */
  datatype Observation = Observation(
    key: Key, fieldsOk: bool, sampleId: string, scenarioId: string, actor: string,
    scenarioExecution: Option<string>, cellId: Option<string>, oracleAssertion: string)

  /** `envelopeOk` is the verdict of the checks that concern the artifact alone: kind, schema, identity,
      oracle text and hash, time. */
  datatype Artifact = Artifact(
    envelopeOk: bool, actor: string, refs: seq<Key>, scenarioIds: seq<string>, observations: seq<Observation>,
    sampleCount: int, oracleAssertion: string)

  datatype AttestationSet = AttestationSet(envelopeOk: bool, tuples: seq<Attestation>, expectedTupleCount: int)

  datatype Identity = Identity(kind: string, id: string)

  /** What identifies the execution an attestation speaks of. */
  function PrimaryExecution(a: Attestation): Identity {
    if a.profile == "station_command" then Identity("command", a.command)
    else if a.profile == "station_control_plane" then Identity("control-plane", a.controlPlane)
    else if a.profile == "station_turn" then Identity("turn", a.turn)
    else if a.profile == "direct_runtime" || a.profile == "client_capability_turn" then
      Identity("client-tool-call", a.clientToolCall)
    else if a.profile == "direct_runtime_secondary_native" then Identity("turn", a.turn)
    else if a.profile == "station_capability_turn" then Identity("station-tool-call", a.stationToolCall)
    else if a.profile == "contract_only" then Identity("contract-run", a.contractRun)
    else if a.profile == "unavailable_runtime" then Identity("unavailable-readiness", a.unavailable)
    else Identity("scenario", a.scenarioExecution)
  }

  function KeyOf(a: Attestation): Key {
    a.key
  }

  function ScenarioOf(a: Attestation): string {
    a.scenarioExecution
  }

  // ---------------------------------------------------------------------------
  // The runtime attestations
  // ---------------------------------------------------------------------------

  predicate ItemOk(profiles: map<Key, string>, a: Attestation) {
    a.key in profiles && a.payloadOk && a.profile == profiles[a.key]
  }

  ghost predicate ItemsOk(profiles: map<Key, string>, tuples: seq<Attestation>) {
    forall i :: 0 <= i < |tuples| ==> ItemOk(profiles, tuples[i])
  }

  /** Every tuple names its scenario execution, and no two share it or what they primarily executed. */
  ghost predicate ExecutedApart(tuples: seq<Attestation>) {
    && (forall i :: 0 <= i < |tuples| ==> tuples[i].scenarioExecution != "")
    && DistinctBy(tuples, ScenarioOf) && DistinctBy(tuples, PrimaryExecution)
  }

  ghost predicate AttestationsOk(
    gate: string, expected: set<Key>, profiles: map<Key, string>, tuples: seq<Attestation>)
  {
    && ItemsOk(profiles, tuples)
    && DistinctBy(tuples, KeyOf) && Image(tuples, KeyOf) == expected
    && (gate != FOUNDATION ==> ExecutedApart(tuples))
  }

  /** `attested` finds every tuple under its key. */
  ghost predicate Indexes(attested: map<Key, Attestation>, tuples: seq<Attestation>) {
    && attested.Keys == Image(tuples, KeyOf)
    && forall i :: 0 <= i < |tuples| ==> tuples[i].key in attested && attested[tuples[i].key] == tuples[i]
  }

  ghost function AttestationAt(tuples: seq<Attestation>, k: Key): Attestation
    requires k in Image(tuples, KeyOf)
  {
    var i :| 0 <= i < |tuples| && tuples[i].key == k;
    tuples[i]
  }

  ghost function Index(tuples: seq<Attestation>): map<Key, Attestation> {
    map k | k in Image(tuples, KeyOf) :: AttestationAt(tuples, k)
  }

  lemma IndexIndexes(tuples: seq<Attestation>)
    requires DistinctBy(tuples, KeyOf)
    ensures Indexes(Index(tuples), tuples)
  {
    forall i | 0 <= i < |tuples| ensures tuples[i].key in Index(tuples) && Index(tuples)[tuples[i].key] == tuples[i] {
      assert KeyOf(tuples[i]) in Image(tuples, KeyOf);
      var a := AttestationAt(tuples, tuples[i].key);
      var j :| 0 <= j < |tuples| && tuples[j].key == tuples[i].key && a == tuples[j];
      assert KeyOf(tuples[j]) == KeyOf(tuples[i]);
    }
  }

  lemma IndexIsUnique(attested: map<Key, Attestation>, tuples: seq<Attestation>)
    requires Indexes(attested, tuples)
    ensures attested == Index(tuples)
  {
  }

  lemma IndexesNext(attested: map<Key, Attestation>, tuples: seq<Attestation>, n: nat)
    requires n < |tuples| && Indexes(attested, tuples[..n]) && tuples[n].key !in attested
    ensures Indexes(attested[tuples[n].key := tuples[n]], tuples[..n + 1])
  {
    NextValue(tuples, KeyOf, n);
    assert forall i :: 0 <= i < n ==> tuples[..n + 1][i] == tuples[..n][i];
  }

  /** The executions seen so far. */
  ghost predicate Executions(tuples: seq<Attestation>, scenarios: set<string>, primaries: set<Identity>) {
    && ExecutedApart(tuples)
    && scenarios == Image(tuples, ScenarioOf) && primaries == Image(tuples, PrimaryExecution)
  }

  /** One tuple's executions are new; otherwise the whole list is refused. */
  method NoteExecution(tuples: seq<Attestation>, n: nat, scenarios: set<string>, primaries: set<Identity>)
    returns (ok: bool, scenarios': set<string>, primaries': set<Identity>)
    requires n < |tuples| && Executions(tuples[..n], scenarios, primaries)
    ensures ok ==> Executions(tuples[..n + 1], scenarios', primaries')
    ensures !ok ==> !ExecutedApart(tuples)
  {
    var item := tuples[n];
    var primary := PrimaryExecution(item);
    NextExecution(tuples, n, scenarios, primaries);
    ok := item.scenarioExecution != "" && item.scenarioExecution !in scenarios && primary !in primaries;
    scenarios', primaries' := scenarios + {item.scenarioExecution}, primaries + {primary};
  }

  lemma NextExecution(tuples: seq<Attestation>, n: nat, scenarios: set<string>, primaries: set<Identity>)
    requires n < |tuples| && Executions(tuples[..n], scenarios, primaries)
    ensures var item, primary := tuples[n], PrimaryExecution(tuples[n]);
            if item.scenarioExecution != "" && item.scenarioExecution !in scenarios && primary !in primaries
            then Executions(tuples[..n + 1], scenarios + {item.scenarioExecution}, primaries + {primary})
            else !ExecutedApart(tuples)
  {
    NextValue(tuples, ScenarioOf, n);
    NextValue(tuples, PrimaryExecution, n);
    assert forall i :: 0 <= i < n ==> tuples[..n + 1][i] == tuples[..n][i];
  }

  method ValidateAttestations(gate: string, expected: set<Key>, profiles: map<Key, string>, tuples: seq<Attestation>)
    returns (r: Option<map<Key, Attestation>>)
    ensures r.Some? <==> AttestationsOk(gate, expected, profiles, tuples)
    ensures r.Some? ==> r.value == Index(tuples)
  {
    var attested: map<Key, Attestation> := map[];
    var scenarios: set<string>, primaries: set<Identity> := {}, {};
    for n := 0 to |tuples|
      invariant ItemsOk(profiles, tuples[..n]) && DistinctBy(tuples[..n], KeyOf)
      invariant Indexes(attested, tuples[..n])
      invariant gate != FOUNDATION ==> Executions(tuples[..n], scenarios, primaries)
    {
      var item := tuples[n];
      NextValue(tuples, KeyOf, n);
      if !ItemOk(profiles, item) || item.key in attested {
        return None;
      }
      if gate != FOUNDATION {
        var ok;
        ok, scenarios, primaries := NoteExecution(tuples, n, scenarios, primaries);
        if !ok {
          return None;
        }
      }
      IndexesNext(attested, tuples, n);
      attested := attested[item.key := item];
    }
    assert tuples[..|tuples|] == tuples;
    if attested.Keys != expected {
      return None;
    }
    IndexIsUnique(attested, tuples);
    r := Some(attested);
  }

  /** Which attestations identify their execution by a turn, and which by a client's tool call. */
  predicate ByTurn(a: Attestation) {
    a.profile == "station_turn" || a.profile == "direct_runtime_secondary_native"
  }

  predicate ByClientToolCall(a: Attestation) {
    a.profile == "direct_runtime" || a.profile == "client_capability_turn"
  }

  /** What the primary execution stands for: two attestations never speak of the same turn, tool call, command,
      readiness snapshot or contract run. */
  lemma ExecutionsDiffer(tuples: seq<Attestation>, i: nat, j: nat)
    requires ExecutedApart(tuples) && i < j < |tuples|
    ensures var a, b := tuples[i], tuples[j];
            && (ByTurn(a) && ByTurn(b) ==> a.turn != b.turn)
            && (ByClientToolCall(a) && ByClientToolCall(b) ==> a.clientToolCall != b.clientToolCall)
            && (a.profile == b.profile == "station_capability_turn" ==> a.stationToolCall != b.stationToolCall)
            && (a.profile == b.profile == "station_command" ==> a.command != b.command)
            && (a.profile == b.profile == "station_control_plane" ==> a.controlPlane != b.controlPlane)
            && (a.profile == b.profile == "contract_only" ==> a.contractRun != b.contractRun)
            && (a.profile == b.profile == "unavailable_runtime" ==> a.unavailable != b.unavailable)
  {
    assert PrimaryExecution(tuples[i]) != PrimaryExecution(tuples[j]);
  }

  // ---------------------------------------------------------------------------
  // A role's observations
  // ---------------------------------------------------------------------------

  function ObservedKey(o: Observation): Key {
    o.key
  }

  function ObservedScenario(o: Observation): string {
    o.scenarioId
  }

  /** `o` speaks of an applicable tuple and is bound to what was attested of it. */
  predicate ObservationOk(
    gate: string, a: Artifact, attested: map<Key, Attestation>, expected: set<Key>, o: Observation)
  {
    && o.fieldsOk && o.key in expected && o.key in attested
    && var runtime := attested[o.key];
    && o.sampleId == runtime.key.sample && o.scenarioId == runtime.key.cell && o.actor == a.actor
    && (gate == FOUNDATION || o.scenarioExecution == Some(runtime.scenarioExecution))
    && (runtime.actor.None? || runtime.actor.value == o.actor)
    && (o.cellId.None? || o.cellId.value == runtime.key.cell)
    && o.oracleAssertion == a.oracleAssertion
  }

  ghost predicate ObservationsOk(
    gate: string, a: Artifact, attested: map<Key, Attestation>, expected: set<Key>, observations: seq<Observation>)
  {
    forall i :: 0 <= i < |observations| ==> ObservationOk(gate, a, attested, expected, observations[i])
  }

  predicate HeadOk(a: Artifact, expected: set<Key>) {
    && a.envelopeOk
    && a.refs != [] && |a.refs| == |Elements(a.refs)| && Elements(a.refs) == expected
    && a.scenarioIds != [] && "" !in a.scenarioIds
    && a.observations != [] && a.sampleCount == |a.observations| == |expected|
    && a.oracleAssertion != ""
  }

  /** What is asked of a role's artifact.  That every applicable tuple is observed is not among it: it follows. */
  ghost predicate EvidenceOk(gate: string, a: Artifact, attested: map<Key, Attestation>, expected: set<Key>) {
    && HeadOk(a, expected)
    && ObservationsOk(gate, a, attested, expected, a.observations)
    && DistinctBy(a.observations, ObservedKey)
    && Elements(a.scenarioIds) == Image(a.observations, ObservedScenario)
  }

  lemma SubsetOfSameSize<T>(a: set<T>, b: set<T>)
    requires a <= b && |a| == |b|
    ensures a == b
  {
    assert b == a + (b - a);
    assert |b - a| == 0;
  }

  /** As many distinct applicable tuples as there are: all of them. */
  lemma AllObserved(expected: set<Key>, observations: seq<Observation>)
    requires DistinctBy(observations, ObservedKey) && |observations| == |expected|
    requires forall i :: 0 <= i < |observations| ==> observations[i].key in expected
    ensures Image(observations, ObservedKey) == expected
  {
    ImageCount(observations, ObservedKey);
    SubsetOfSameSize(Image(observations, ObservedKey), expected);
  }

  method ValidateGateEvidence(gate: string, a: Artifact, attested: map<Key, Attestation>, expected: set<Key>)
    returns (ok: bool)
    requires expected <= attested.Keys
    ensures ok <==> EvidenceOk(gate, a, attested, expected)
  {
    if !HeadOk(a, expected) {
      return false;
    }
    var observed: set<Key>, scenarios: set<string> := {}, {};
    var observations := a.observations;
    for n := 0 to |observations|
      invariant ObservationsOk(gate, a, attested, expected, observations[..n])
      invariant DistinctBy(observations[..n], ObservedKey) && observed == Image(observations[..n], ObservedKey)
      invariant scenarios == Image(observations[..n], ObservedScenario)
    {
      var o := observations[n];
      NextValue(observations, ObservedKey, n);
      NextValue(observations, ObservedScenario, n);
      if !ObservationOk(gate, a, attested, expected, o) || o.key in observed {
        return false;
      }
      observed, scenarios := observed + {o.key}, scenarios + {o.scenarioId};
    }
    assert observations[..|observations|] == observations;
    AllObserved(expected, observations);
    ok := observed == expected && Elements(a.scenarioIds) == scenarios;
  }

  // ---------------------------------------------------------------------------
  // The candidate
  // ---------------------------------------------------------------------------

  function ObservingRoles(contract: Contract, gate: string): set<string>
    requires gate in contract.gates
  {
    EvidenceRoles(contract.gates[gate]) - {ATTESTATIONS}
  }

  ghost predicate RoleOkFor(
    gate: string, role: string, artifacts: map<string, Artifact>, attested: map<Key, Attestation>,
    expected: map<string, set<Key>>)
  {
    role in artifacts && role in expected && EvidenceOk(gate, artifacts[role], attested, expected[role])
  }

  ghost predicate RolesOk(
    contract: Contract, e: Expanded, gate: string, artifacts: map<string, Artifact>, attested: map<Key, Attestation>)
    requires gate in contract.gates && Fits(e, contract)
  {
    forall role :: role in ObservingRoles(contract, gate) ==> RoleOkFor(gate, role, artifacts, attested, e.byRole[gate])
  }

  /** What is asked of a candidate for `gate` once the matrix is expanded into `e`. */
  ghost predicate CandidateOk(
    contract: Contract, e: Expanded, gate: string, runtime: AttestationSet, artifacts: map<string, Artifact>)
    requires gate in contract.gates && Fits(e, contract)
  {
    && runtime.envelopeOk && runtime.expectedTupleCount == |e.byGate[gate]|
    && AttestationsOk(gate, e.byGate[gate], e.profiles[gate], runtime.tuples)
    && RolesOk(contract, e, gate, artifacts, Index(runtime.tuples))
  }

  /** Every tuple of the gate is attested once, and nothing else is, as the tuple's row asks. */
  ghost predicate AttestedOneToOne(m: Matrix, gate: string, tuples: seq<Attestation>) {
    && DistinctBy(tuples, KeyOf)
    && (forall k :: GateTuple(m, gate, k) <==> exists i :: 0 <= i < |tuples| && tuples[i].key == k)
    && (forall row, i :: row in m.rows && 0 <= i < |tuples| && InProduct(m, row, tuples[i].key) ==>
          tuples[i].profile == row.profile)
  }

  /** Every tuple that applies to the role is observed once, and nothing else is. */
  ghost predicate ObservedOneToOne(m: Matrix, gate: string, role: string, observations: seq<Observation>) {
    && DistinctBy(observations, ObservedKey)
    && (forall k :: RoleTuple(m, gate, role, k) <==> exists i :: 0 <= i < |observations| && observations[i].key == k)
  }

  /** `o` carries the execution that was attested of its tuple. */
  ghost predicate CarriesExecution(tuples: seq<Attestation>, o: Observation) {
    exists i :: 0 <= i < |tuples| && tuples[i].key == o.key && o.scenarioExecution == Some(tuples[i].scenarioExecution)
  }

  ghost predicate ObservedApart(tuples: seq<Attestation>, observations: seq<Observation>) {
    && (forall i :: 0 <= i < |observations| ==> CarriesExecution(tuples, observations[i]))
    && (forall i, j :: 0 <= i < j < |observations| ==>
          observations[i].scenarioExecution != observations[j].scenarioExecution)
  }

  /** The evidence covers the matrix one to one, and outside the foundation gate no execution serves twice. */
  ghost predicate Covers(
    contract: Contract, m: Matrix, gate: string, tuples: seq<Attestation>, artifacts: map<string, Artifact>)
  {
    && gate in contract.gates
    && AttestedOneToOne(m, gate, tuples)
    && (gate != FOUNDATION ==> ExecutedApart(tuples))
    && forall role :: role in ObservingRoles(contract, gate) ==>
         && role in artifacts
         && ObservedOneToOne(m, gate, role, artifacts[role].observations)
         && (gate != FOUNDATION ==> ObservedApart(tuples, artifacts[role].observations))
  }

  lemma AcceptedAttestations(contract: Contract, m: Matrix, e: Expanded, gate: string, tuples: seq<Attestation>)
    requires IsExpansion(e, contract, m) && gate in contract.gates
    requires AttestationsOk(gate, e.byGate[gate], e.profiles[gate], tuples)
    ensures AttestedOneToOne(m, gate, tuples)
  {
    forall k ensures GateTuple(m, gate, k) <==> exists i :: 0 <= i < |tuples| && tuples[i].key == k {
      assert GateTuple(m, gate, k) <==> k in Image(tuples, KeyOf);
    }
    forall row, i | row in m.rows && 0 <= i < |tuples| && InProduct(m, row, tuples[i].key)
      ensures tuples[i].profile == row.profile
    {
      assert ItemOk(e.profiles[gate], tuples[i]);
      assert GateTuple(m, gate, tuples[i].key);
    }
  }

  lemma ObservedAll(m: Matrix, gate: string, role: string, observations: seq<Observation>, expected: set<Key>)
    requires DistinctBy(observations, ObservedKey) && Image(observations, ObservedKey) == expected
    requires forall k :: k in expected <==> RoleTuple(m, gate, role, k)
    ensures ObservedOneToOne(m, gate, role, observations)
  {
    forall k
      ensures RoleTuple(m, gate, role, k) <==> exists i :: 0 <= i < |observations| && observations[i].key == k
    {
      assert k in expected <==> k in Image(observations, ObservedKey);
    }
  }

  lemma AcceptedObservations(
    m: Matrix, gate: string, role: string, a: Artifact, attested: map<Key, Attestation>, expected: set<Key>)
    requires EvidenceOk(gate, a, attested, expected)
    requires forall k :: k in expected <==> RoleTuple(m, gate, role, k)
    ensures ObservedOneToOne(m, gate, role, a.observations)
  {
    assert Image(a.observations, ObservedKey) == expected by {
      AllObserved(expected, a.observations);
    }
    ObservedAll(m, gate, role, a.observations, expected);
  }

  lemma ObservedOnce(
    gate: string, a: Artifact, tuples: seq<Attestation>, attested: map<Key, Attestation>, expected: set<Key>)
    requires EvidenceOk(gate, a, attested, expected) && Indexes(attested, tuples)
    requires gate != FOUNDATION && ExecutedApart(tuples)
    ensures ObservedApart(tuples, a.observations)
  {
    forall i | 0 <= i < |a.observations| ensures CarriesExecution(tuples, a.observations[i]) {
      AttestationOf(tuples, attested, a.observations[i].key);
      assert ObservationOk(gate, a, attested, expected, a.observations[i]);
    }
    forall i, j | 0 <= i < j < |a.observations|
      ensures a.observations[i].scenarioExecution != a.observations[j].scenarioExecution
    {
      var x, y := a.observations[i], a.observations[j];
      assert ObservationOk(gate, a, attested, expected, x) && ObservationOk(gate, a, attested, expected, y);
      assert ObservedKey(x) != ObservedKey(y);
      ScenariosDiffer(tuples, attested, x.key, y.key);
    }
  }

  lemma AttestationOf(tuples: seq<Attestation>, attested: map<Key, Attestation>, k: Key)
    requires Indexes(attested, tuples) && k in attested
    ensures exists i :: 0 <= i < |tuples| && tuples[i].key == k && tuples[i] == attested[k]
  {
    assert k in Image(tuples, KeyOf);
    var i :| 0 <= i < |tuples| && KeyOf(tuples[i]) == k;
    assert tuples[i] == attested[k];
  }

  lemma ScenariosDiffer(tuples: seq<Attestation>, attested: map<Key, Attestation>, k: Key, l: Key)
    requires Indexes(attested, tuples) && DistinctBy(tuples, ScenarioOf) && k in attested && l in attested && k != l
    ensures attested[k].scenarioExecution != attested[l].scenarioExecution
  {
    AttestationOf(tuples, attested, k);
    AttestationOf(tuples, attested, l);
    var i :| 0 <= i < |tuples| && tuples[i].key == k && tuples[i] == attested[k];
    var j :| 0 <= j < |tuples| && tuples[j].key == l && tuples[j] == attested[l];
    assert ScenarioOf(tuples[i]) != ScenarioOf(tuples[j]);
  }

  /** Accepted evidence covers the matrix one to one. */
  lemma AcceptedMeansCovered(
    contract: Contract, m: Matrix, e: Expanded, gate: string, runtime: AttestationSet, artifacts: map<string, Artifact>)
    requires IsExpansion(e, contract, m) && gate in contract.gates
    requires CandidateOk(contract, e, gate, runtime, artifacts)
    ensures Covers(contract, m, gate, runtime.tuples, artifacts)
  {
    AcceptedAttestations(contract, m, e, gate, runtime.tuples);
    var attested := Index(runtime.tuples);
    IndexIndexes(runtime.tuples);
    forall role | role in ObservingRoles(contract, gate)
      ensures ObservedOneToOne(m, gate, role, artifacts[role].observations)
      ensures gate != FOUNDATION ==> ObservedApart(runtime.tuples, artifacts[role].observations)
    {
      AcceptedObservations(m, gate, role, artifacts[role], attested, e.byRole[gate][role]);
      if gate != FOUNDATION {
        ObservedOnce(gate, artifacts[role], runtime.tuples, attested, e.byRole[gate][role]);
      }
    }
  }

  lemma GatesAreUnique(contract: Contract, m: Matrix, e: Expanded, f: Expanded)
    requires IsExpansion(e, contract, m) && IsExpansion(f, contract, m)
    ensures e.byGate == f.byGate
  {
    forall g | g in contract.gates ensures e.byGate[g] == f.byGate[g] {
    }
  }

  lemma RolesAreUnique(contract: Contract, m: Matrix, e: Expanded, f: Expanded)
    requires IsExpansion(e, contract, m) && IsExpansion(f, contract, m)
    ensures e.byRole == f.byRole
  {
    forall g | g in contract.gates ensures e.byRole[g] == f.byRole[g] {
      forall role | role in e.byRole[g] ensures e.byRole[g][role] == f.byRole[g][role] {
      }
    }
  }

  lemma ProfilesAreUnique(contract: Contract, m: Matrix, e: Expanded, f: Expanded)
    requires IsExpansion(e, contract, m) && IsExpansion(f, contract, m) && e.byGate == f.byGate
    ensures e.profiles == f.profiles
  {
    forall g | g in contract.gates ensures e.profiles[g] == f.profiles[g] {
      forall k | k in e.profiles[g] ensures e.profiles[g][k] == f.profiles[g][k] {
        assert GateTuple(m, g, k);
      }
    }
  }

  /** The matrix determines its expansion. */
  lemma ExpansionIsUnique(contract: Contract, m: Matrix, e: Expanded, f: Expanded)
    requires IsExpansion(e, contract, m) && IsExpansion(f, contract, m)
    ensures e == f
  {
    GatesAreUnique(contract, m, e, f);
    RolesAreUnique(contract, m, e, f);
    ProfilesAreUnique(contract, m, e, f);
  }

  method ValidateRoles(
    contract: Contract, m: Matrix, e: Expanded, gate: string, artifacts: map<string, Artifact>,
    attested: map<Key, Attestation>)
    returns (ok: bool)
    requires IsExpansion(e, contract, m) && gate in contract.gates && attested.Keys == e.byGate[gate]
    ensures ok <==> RolesOk(contract, e, gate, artifacts, attested)
  {
    var left := ObservingRoles(contract, gate);
    while left != {}
      invariant left <= ObservingRoles(contract, gate)
      invariant forall role :: role in ObservingRoles(contract, gate) && role !in left ==>
                  RoleOkFor(gate, role, artifacts, attested, e.byRole[gate])
    {
      var role :| role in left;
      RoleWithinGate(e, contract, m, gate, role);
      if role !in artifacts {
        return false;
      }
      ok := ValidateGateEvidence(gate, artifacts[role], attested, e.byRole[gate][role]);
      if !ok {
        return;
      }
      left := left - {role};
    }
    ok := true;
  }

  method ValidateArtifacts(
    contract: Contract, m: Matrix, e: Expanded, gate: string, runtime: AttestationSet, artifacts: map<string, Artifact>)
    returns (ok: bool)
    requires IsExpansion(e, contract, m) && gate in contract.gates
    ensures ok <==> CandidateOk(contract, e, gate, runtime, artifacts)
  {
    var attested := ValidateAttestations(gate, e.byGate[gate], e.profiles[gate], runtime.tuples);
    if attested.None? || !runtime.envelopeOk || runtime.expectedTupleCount != |e.byGate[gate]| {
      return false;
    }
    ok := ValidateRoles(contract, m, e, gate, artifacts, attested.value);
  }

  /** Acceptance is the matrix being in order and its expansion being evidenced; then the matrix is covered. */
  method ValidateCandidate(
    contract: Contract, m: Matrix, gate: string, runtime: AttestationSet, artifacts: map<string, Artifact>)
    returns (ok: bool)
    ensures ok <==> Accepts(contract, m) && gate in contract.gates && exists e ::
              IsExpansion(e, contract, m) && CandidateOk(contract, e, gate, runtime, artifacts)
    ensures ok ==> Covers(contract, m, gate, runtime.tuples, artifacts)
  {
    if gate !in contract.gates {
      return false;
    }
    var expanded := ExpandedMatrixContract(contract, m);
    if expanded.None? {
      return false;
    }
    var e := expanded.value;
    ok := ValidateArtifacts(contract, m, e, gate, runtime, artifacts);
    forall f | IsExpansion(f, contract, m) ensures f == e {
      ExpansionIsUnique(contract, m, e, f);
    }
    if ok {
      AcceptedMeansCovered(contract, m, e, gate, runtime, artifacts);
    }
  }
}
