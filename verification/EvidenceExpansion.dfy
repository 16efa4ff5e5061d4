/** `expanded_matrix_contract`: the loops that expand the matrix, against the product it stands for. */
module EvidenceExpansion {
  import opened Wrappers
  import opened Sequences
  import opened EvidenceMatrix

  // ---------------------------------------------------------------------------
  // Checks on a row
  // ---------------------------------------------------------------------------

  predicate GroupOk(roles: seq<string>) {
    "" !in roles && |roles| == |Elements(roles)|
  }

  predicate PolicyOk(policy: Policy, roles: set<string>) {
    var always, required, other := Elements(policy.always), Elements(policy.required), Elements(policy.notApplicable);
    && GroupOk(policy.always) && GroupOk(policy.required) && GroupOk(policy.notApplicable)
    && always !! required && always !! other && required !! other
    && always + required + other == roles
  }

  function EvidenceRoles(gate: Gate): set<string> {
    gate.roles - GENERATED
  }

  function Applicable(row: Row): set<string> {
    Elements(row.policy.always) + Elements(row.policy.required)
  }

  predicate CellOk(m: Matrix, row: Row, cell: string) {
    && (row.orderingFilter.Some? ==>
          && row.orderingFilter.value != [] && "" !in row.orderingFilter.value
          && Orderings(m, row, cell) != [])
    && Chosen(m, row, cell).sampleSet.value in m.sampleSets
  }

  ghost predicate RowOk(contract: Contract, m: Matrix, row: Row) {
    && row.gate in contract.gates
    && PolicyOk(row.policy, EvidenceRoles(contract.gates[row.gate]))
    && row.profile in PROFILES
    && (forall name :: name in row.cellSets ==> name in m.cellSets)
    && (forall cell :: RowCell(m, row, cell) ==> CellOk(m, row, cell))
  }

  // ---------------------------------------------------------------------------
  // Adding tuples
  // ---------------------------------------------------------------------------

  ghost predicate Fits(made: Expanded, contract: Contract) {
    && made.byGate.Keys == made.byRole.Keys == made.profiles.Keys == contract.gates.Keys
    && forall g :: g in contract.gates ==> made.byRole[g].Keys == EvidenceRoles(contract.gates[g])
  }

  predicate Holds(made: Expanded, gate: string) {
    gate in made.byGate && gate in made.byRole && gate in made.profiles
  }

  function AddedRoles(byRole: map<string, set<Key>>, roles: set<string>, ks: set<Key>): map<string, set<Key>> {
    map role | role in byRole :: if role in roles then byRole[role] + ks else byRole[role]
  }

  function AddedProfiles(profiles: map<Key, string>, ks: set<Key>, profile: string): map<Key, string> {
    profiles + map k | k in ks :: profile
  }

  /** `made` with the tuples `ks` of `row` added. */
  function Added(made: Expanded, row: Row, ks: seq<Key>): Expanded
    requires Holds(made, row.gate)
  {
    var g := row.gate;
    Expanded(
      made.byGate[g := made.byGate[g] + Elements(ks)],
      made.byRole[g := AddedRoles(made.byRole[g], Applicable(row), Elements(ks))],
      made.profiles[g := AddedProfiles(made.profiles[g], Elements(ks), row.profile)])
  }

  lemma UpdatedSame<T>(m: map<string, T>, g: string)
    requires g in m
    ensures m[g := m[g]] == m
  {
  }

  lemma UpdatedTwice<T>(m: map<string, T>, g: string, x: T, y: T)
    ensures m[g := x][g := y] == m[g := y]
  {
  }

  lemma AddedNothing(made: Expanded, row: Row)
    requires Holds(made, row.gate)
    ensures Added(made, row, []) == made
  {
    assert Elements<Key>([]) == {};
    var byRole := made.byRole[row.gate];
    var same := AddedRoles(byRole, Applicable(row), {});
    forall role | role in byRole ensures same[role] == byRole[role] {
      assert byRole[role] + {} == byRole[role];
    }
    assert same == byRole;
    UpdatedSame(made.byGate, row.gate);
    UpdatedSame(made.byRole, row.gate);
    UpdatedSame(made.profiles, row.gate);
    assert made.byGate[row.gate] + {} == made.byGate[row.gate];
    assert AddedProfiles(made.profiles[row.gate], {}, row.profile) == made.profiles[row.gate];
  }

  lemma AddedRolesTwice(byRole: map<string, set<Key>>, roles: set<string>, a: set<Key>, b: set<Key>)
    ensures AddedRoles(AddedRoles(byRole, roles, a), roles, b) == AddedRoles(byRole, roles, a + b)
  {
    var twice, once := AddedRoles(AddedRoles(byRole, roles, a), roles, b), AddedRoles(byRole, roles, a + b);
    forall role | role in byRole ensures twice[role] == once[role] {
      assert byRole[role] + a + b == byRole[role] + (a + b);
    }
  }

  lemma AddedProfilesTwice(profiles: map<Key, string>, a: set<Key>, b: set<Key>, profile: string)
    ensures AddedProfiles(AddedProfiles(profiles, a, profile), b, profile) == AddedProfiles(profiles, a + b, profile)
  {
  }

  lemma AddedTwice(made: Expanded, row: Row, a: seq<Key>, b: seq<Key>)
    requires Holds(made, row.gate)
    ensures Added(Added(made, row, a), row, b) == Added(made, row, a + b)
  {
    var g, x, y := row.gate, Elements(a), Elements(b);
    assert Elements(a + b) == x + y;
    assert made.byGate[g] + x + y == made.byGate[g] + (x + y);
    AddedRolesTwice(made.byRole[g], Applicable(row), x, y);
    AddedProfilesTwice(made.profiles[g], x, y, row.profile);
    UpdatedTwice(made.byGate, g, made.byGate[g] + x, made.byGate[g] + (x + y));
    UpdatedTwice(
      made.byRole, g, AddedRoles(made.byRole[g], Applicable(row), x),
      AddedRoles(made.byRole[g], Applicable(row), x + y));
    UpdatedTwice(
      made.profiles, g,
      AddedProfiles(made.profiles[g], x, row.profile), AddedProfiles(made.profiles[g], x + y, row.profile));
  }

  /** None of `ks` is there yet, and none comes twice. */
  ghost predicate Fresh(there: set<Key>, ks: seq<Key>) {
    Distinct(ks) && forall k :: k in ks ==> k !in there
  }

  lemma FreshSplits(there: set<Key>, a: seq<Key>, b: seq<Key>)
    ensures Fresh(there, a + b) <==> Fresh(there, a) && Fresh(there + Elements(a), b)
  {
    DistinctConcat(a, b);
  }

  /** How far a loop has come: it has added `done` of the tuples it is to add. */
  ghost predicate Progress(made: Expanded, row: Row, all: seq<Key>, now: Expanded, done: seq<Key>, rest: seq<Key>)
    requires Holds(made, row.gate)
  {
    && all == done + rest
    && now == Added(made, row, done)
    && Fresh(made.byGate[row.gate], done)
  }

  lemma ProgressStarts(made: Expanded, row: Row, all: seq<Key>)
    requires Holds(made, row.gate)
    ensures Progress(made, row, all, made, [], all)
  {
    AddedNothing(made, row);
  }

  lemma ProgressContinues(
    made: Expanded, row: Row, all: seq<Key>, now: Expanded, done: seq<Key>, part: seq<Key>, rest: seq<Key>)
    requires Holds(made, row.gate) && Progress(made, row, all, now, done, part + rest)
    ensures Fresh(now.byGate[row.gate], part) ==>
              Progress(made, row, all, Added(now, row, part), done + part, rest)
    ensures !Fresh(now.byGate[row.gate], part) ==> !Fresh(made.byGate[row.gate], all)
  {
    AddedTwice(made, row, done, part);
    FreshSplits(made.byGate[row.gate], done, part);
    FreshSplits(made.byGate[row.gate], done + part, rest);
    assert all == done + part + rest;
  }

  method AddSamples(made: Expanded, row: Row, k: Key, samples: seq<string>) returns (r: Option<Expanded>)
    requires Holds(made, row.gate)
    ensures r.Some? <==> Fresh(made.byGate[row.gate], SampleKeys(k, samples))
    ensures r.Some? ==> r.value == Added(made, row, SampleKeys(k, samples))
  {
    ghost var all := SampleKeys(k, samples);
    ghost var done: seq<Key> := [];
    var now := made;
    ProgressStarts(made, row, all);
    for i := 0 to |samples|
      invariant Holds(now, row.gate)
      invariant Progress(made, row, all, now, done, SampleKeys(k, samples[i..]))
    {
      var key := k.(sample := samples[i]);
      ProgressContinues(made, row, all, now, done, [key], SampleKeys(k, samples[i + 1..]));
      assert samples[i..][1..] == samples[i + 1..];
      assert Elements([key]) == {key};
      if key in now.byGate[row.gate] {
        return None;
      }
      var g := row.gate;
      now := Expanded(
        now.byGate[g := now.byGate[g] + {key}],
        now.byRole[g := AddedRoles(now.byRole[g], Applicable(row), {key})],
        now.profiles[g := AddedProfiles(now.profiles[g], {key}, row.profile)]);
      done := done + [key];
    }
    assert done == all;
    r := Some(now);
  }

  method AddOrderings(made: Expanded, row: Row, k: Key, orderings: seq<string>, samples: seq<string>)
    returns (r: Option<Expanded>)
    requires Holds(made, row.gate)
    ensures r.Some? <==> Fresh(made.byGate[row.gate], OrderingKeys(k, orderings, samples))
    ensures r.Some? ==> r.value == Added(made, row, OrderingKeys(k, orderings, samples))
  {
    ghost var all := OrderingKeys(k, orderings, samples);
    ghost var done: seq<Key> := [];
    r := Some(made);
    ProgressStarts(made, row, all);
    for i := 0 to |orderings|
      invariant r.Some? && Holds(r.value, row.gate)
      invariant Progress(made, row, all, r.value, done, OrderingKeys(k, orderings[i..], samples))
    {
      var at := k.(ordering := orderings[i]);
      ghost var part := SampleKeys(at, samples);
      assert orderings[i..][1..] == orderings[i + 1..];
      ProgressContinues(made, row, all, r.value, done, part, OrderingKeys(k, orderings[i + 1..], samples));
      r := AddSamples(r.value, row, at, samples);
      if r.None? {
        return;
      }
      done := done + part;
    }
    assert done == all;
  }

  method AddCell(made: Expanded, row: Row, k: Key, locales: seq<string>, orderings: seq<string>, samples: seq<string>)
    returns (r: Option<Expanded>)
    requires Holds(made, row.gate)
    ensures r.Some? <==> Fresh(made.byGate[row.gate], LocaleKeys(k, locales, orderings, samples))
    ensures r.Some? ==> r.value == Added(made, row, LocaleKeys(k, locales, orderings, samples))
  {
    ghost var all := LocaleKeys(k, locales, orderings, samples);
    ghost var done: seq<Key> := [];
    r := Some(made);
    ProgressStarts(made, row, all);
    for i := 0 to |locales|
      invariant r.Some? && Holds(r.value, row.gate)
      invariant Progress(made, row, all, r.value, done, LocaleKeys(k, locales[i..], orderings, samples))
    {
      var at := k.(locale := locales[i]);
      ghost var part := OrderingKeys(at, orderings, samples);
      assert locales[i..][1..] == locales[i + 1..];
      ProgressContinues(made, row, all, r.value, done, part, LocaleKeys(k, locales[i + 1..], orderings, samples));
      r := AddOrderings(r.value, row, at, orderings, samples);
      if r.None? {
        return;
      }
      done := done + part;
    }
    assert done == all;
  }

  // ---------------------------------------------------------------------------
  // One row
  // ---------------------------------------------------------------------------

  method CellRule(rules: seq<Rule>, cell: string) returns (choice: Choice)
    ensures choice == Ruled(rules, cell)
  {
    choice := Choice(None, None, None);
    for i := 0 to |rules|
      invariant choice == Ruled(rules[..i], cell)
    {
      assert rules[..i + 1][..i] == rules[..i];
      if cell in rules[i].cells {
        choice := Overlay(choice, rules[i].choice);
      }
    }
    assert rules[..|rules|] == rules;
  }

  method CellsOf(m: Matrix, row: Row) returns (r: Option<seq<string>>)
    ensures r.Some? <==> forall name :: name in row.cellSets ==> name in m.cellSets
    ensures r.Some? ==> r.value == SetCells(m, row.cellSets) + row.cells
  {
    var cells: seq<string> := [];
    for i := 0 to |row.cellSets|
      invariant cells == SetCells(m, row.cellSets[..i])
      invariant forall name :: name in row.cellSets[..i] ==> name in m.cellSets
    {
      assert row.cellSets[..i + 1][..i] == row.cellSets[..i];
      var name := row.cellSets[i];
      if name !in m.cellSets {
        return None;
      }
      cells := cells + m.cellSets[name];
    }
    assert row.cellSets[..|row.cellSets|] == row.cellSets;
    r := Some(cells + row.cells);
  }

  method ExpandCell(m: Matrix, made: Expanded, row: Row, cell: string) returns (r: Option<Expanded>)
    requires Holds(made, row.gate)
    ensures r.Some? <==> CellOk(m, row, cell) && Fresh(made.byGate[row.gate], CellKeys(m, row, cell))
    ensures r.Some? ==> r.value == Added(made, row, CellKeys(m, row, cell))
  {
    var ruled := CellRule(m.rules, cell);
    var defaults := Choice(Some(m.locales), Some(m.orderings), Some(m.sampleSet));
    var chosen := Overlay(Overlay(defaults, row.choice), ruled);
    assert chosen == Chosen(m, row, cell);
    var orderings := chosen.orderings.value;
    if row.orderingFilter.Some? {
      var allowed := row.orderingFilter.value;
      if allowed == [] || "" in allowed {
        return None;
      }
      orderings := Kept(orderings, allowed);
      if orderings == [] {
        return None;
      }
    }
    if chosen.sampleSet.value !in m.sampleSets {
      return None;
    }
    r := AddCell(made, row, Place(row, cell), chosen.locales.value, orderings, m.sampleSets[chosen.sampleSet.value]);
  }

  ghost predicate CellsOk(m: Matrix, row: Row, cells: seq<string>) {
    forall cell :: cell in cells ==> CellOk(m, row, cell)
  }

  method ExpandCells(m: Matrix, made: Expanded, row: Row, cells: seq<string>) returns (r: Option<Expanded>)
    requires Holds(made, row.gate)
    ensures r.Some? <==> CellsOk(m, row, cells) && Fresh(made.byGate[row.gate], CellsKeys(m, row, cells))
    ensures r.Some? ==> r.value == Added(made, row, CellsKeys(m, row, cells))
  {
    ghost var all := CellsKeys(m, row, cells);
    ghost var done: seq<Key> := [];
    r := Some(made);
    ProgressStarts(made, row, all);
    for i := 0 to |cells|
      invariant r.Some? && Holds(r.value, row.gate)
      invariant CellsOk(m, row, cells[..i])
      invariant Progress(made, row, all, r.value, done, CellsKeys(m, row, cells[i..]))
    {
      ghost var part := CellKeys(m, row, cells[i]);
      assert cells[i..][1..] == cells[i + 1..];
      ProgressContinues(made, row, all, r.value, done, part, CellsKeys(m, row, cells[i + 1..]));
      r := ExpandCell(m, r.value, row, cells[i]);
      if r.None? {
        return;
      }
      done := done + part;
    }
    assert done == all;
    assert cells[..|cells|] == cells;
  }

  lemma CellsOkMeans(m: Matrix, row: Row)
    ensures CellsOk(m, row, Once(SetCells(m, row.cellSets) + row.cells)) <==>
            forall cell :: RowCell(m, row, cell) ==> CellOk(m, row, cell)
  {
    var cells := SetCells(m, row.cellSets) + row.cells;
    OnceMembers(cells);
    forall cell ensures cell in Once(cells) <==> RowCell(m, row, cell) {
      SetCellsMembers(m, row.cellSets, cell);
    }
  }

  method ExpandRow(contract: Contract, m: Matrix, made: Expanded, row: Row) returns (r: Option<Expanded>)
    requires Fits(made, contract)
    ensures r.Some? <==> RowOk(contract, m, row) && Fresh(made.byGate[row.gate], RowKeys(m, row))
    ensures r.Some? ==> r.value == Added(made, row, RowKeys(m, row))
  {
    if row.gate !in contract.gates || !PolicyOk(row.policy, EvidenceRoles(contract.gates[row.gate]))
       || row.profile !in PROFILES
    {
      return None;
    }
    var cells := CellsOf(m, row);
    if cells.None? {
      return None;
    }
    CellsOkMeans(m, row);
    r := ExpandCells(m, made, row, Once(cells.value));
  }

  // ---------------------------------------------------------------------------
  // All rows
  // ---------------------------------------------------------------------------

  /** `role` must cover `k` at gate `g`: a row of `rows` makes it and applies the role. */
  ghost predicate Needed(m: Matrix, rows: seq<Row>, g: string, role: string, k: Key) {
    exists row :: row in rows && row.gate == g && role in Applicable(row) && k in RowKeys(m, row)
  }

  ghost predicate GatesKnow(made: Expanded, done: seq<Key>) {
    forall g, k :: g in made.byGate ==> (k in made.byGate[g] <==> k in done && k.gate == g)
  }

  ghost predicate RolesKnow(made: Expanded, m: Matrix, rows: seq<Row>) {
    forall g, role, k :: g in made.byRole && role in made.byRole[g] ==>
      (k in made.byRole[g][role] <==> Needed(m, rows, g, role, k))
  }

  ghost predicate ProfilesKnow(made: Expanded, m: Matrix, rows: seq<Row>) {
    && (forall g :: g in made.byGate ==> g in made.profiles && made.profiles[g].Keys == made.byGate[g])
    && (forall row, k :: row in rows && k in RowKeys(m, row) ==>
          row.gate in made.profiles && k in made.profiles[row.gate] && made.profiles[row.gate][k] == row.profile)
  }

  ghost predicate Describes(made: Expanded, contract: Contract, m: Matrix, rows: seq<Row>, done: seq<Key>) {
    Fits(made, contract) && GatesKnow(made, done) && RolesKnow(made, m, rows) && ProfilesKnow(made, m, rows)
  }

  lemma RowKeysGate(m: Matrix, row: Row)
    ensures forall k :: k in RowKeys(m, row) ==> k.gate == row.gate
  {
    forall k | k in RowKeys(m, row) ensures k.gate == row.gate {
      RowKeysAreProduct(m, row, k);
    }
  }

  lemma RolesKnowMore(made: Expanded, contract: Contract, m: Matrix, rows: seq<Row>, row: Row)
    requires Fits(made, contract) && RolesKnow(made, m, rows) && row.gate in contract.gates
    ensures RolesKnow(Added(made, row, RowKeys(m, row)), m, rows + [row])
  {
    var now := Added(made, row, RowKeys(m, row));
    forall g, role, k | g in now.byRole && role in now.byRole[g]
      ensures k in now.byRole[g][role] <==> Needed(m, rows + [row], g, role, k)
    {
      assert Needed(m, rows + [row], g, role, k) <==>
        Needed(m, rows, g, role, k) || (row.gate == g && role in Applicable(row) && k in RowKeys(m, row)) by {
        assert row in rows + [row];
      }
    }
  }

  lemma ProfilesKnowMore(made: Expanded, contract: Contract, m: Matrix, rows: seq<Row>, row: Row)
    requires Fits(made, contract) && ProfilesKnow(made, m, rows) && row.gate in contract.gates
    requires Fresh(made.byGate[row.gate], RowKeys(m, row))
    ensures ProfilesKnow(Added(made, row, RowKeys(m, row)), m, rows + [row])
  {
    var now := Added(made, row, RowKeys(m, row));
    forall other, k | other in rows + [row] && k in RowKeys(m, other)
      ensures other.gate in now.profiles && k in now.profiles[other.gate]
      ensures now.profiles[other.gate][k] == other.profile
    {
      if other in rows {
        assert k in made.profiles[other.gate];
      }
    }
  }

  lemma GatesKnowMore(made: Expanded, contract: Contract, m: Matrix, done: seq<Key>, row: Row)
    requires Fits(made, contract) && GatesKnow(made, done) && row.gate in contract.gates
    ensures GatesKnow(Added(made, row, RowKeys(m, row)), done + RowKeys(m, row))
  {
    RowKeysGate(m, row);
  }

  lemma DescribesMore(made: Expanded, contract: Contract, m: Matrix, rows: seq<Row>, done: seq<Key>, row: Row)
    requires Describes(made, contract, m, rows, done) && row.gate in contract.gates
    requires Fresh(made.byGate[row.gate], RowKeys(m, row))
    ensures Describes(Added(made, row, RowKeys(m, row)), contract, m, rows + [row], done + RowKeys(m, row))
  {
    GatesKnowMore(made, contract, m, done, row);
    RolesKnowMore(made, contract, m, rows, row);
    ProfilesKnowMore(made, contract, m, rows, row);
    assert Fits(Added(made, row, RowKeys(m, row)), contract);
  }

  lemma FreshMeansDistinct(made: Expanded, contract: Contract, m: Matrix, rows: seq<Row>, done: seq<Key>, row: Row)
    requires Describes(made, contract, m, rows, done) && row.gate in contract.gates && Distinct(done)
    ensures Fresh(made.byGate[row.gate], RowKeys(m, row)) <==> Distinct(done + RowKeys(m, row))
  {
    RowKeysGate(m, row);
    DistinctConcat(done, RowKeys(m, row));
  }

  function Start(contract: Contract): Expanded {
    Expanded(
      map g | g in contract.gates :: {},
      map g | g in contract.gates :: map role | role in EvidenceRoles(contract.gates[g]) :: {},
      map g | g in contract.gates :: map[])
  }

  ghost predicate RowsOk(contract: Contract, m: Matrix, rows: seq<Row>) {
    forall row :: row in rows ==> RowOk(contract, m, row)
  }

  lemma RowsOkMore(contract: Contract, m: Matrix, rows: seq<Row>, row: Row)
    requires RowsOk(contract, m, rows) && RowOk(contract, m, row)
    ensures RowsOk(contract, m, rows + [row])
  {
  }

  /** `done` are the tuples of the first `i` rows. */
  ghost predicate KeysDone(m: Matrix, i: nat, done: seq<Key>) {
    i <= |m.rows| && AllKeys(m, m.rows) == done + AllKeys(m, m.rows[i..])
  }

  lemma AllKeysFrom(m: Matrix, rows: seq<Row>, i: nat)
    requires i < |rows|
    ensures AllKeys(m, rows[i..]) == RowKeys(m, rows[i]) + AllKeys(m, rows[i + 1..])
  {
    assert rows[i..][1..] == rows[i + 1..];
  }

  lemma KeysDoneNext(m: Matrix, i: nat, done: seq<Key>)
    requires KeysDone(m, i, done) && i < |m.rows|
    ensures KeysDone(m, i + 1, done + RowKeys(m, m.rows[i]))
    ensures Distinct(AllKeys(m, m.rows)) ==> Distinct(done + RowKeys(m, m.rows[i]))
  {
    AllKeysFrom(m, m.rows, i);
    DistinctPrefix(done, RowKeys(m, m.rows[i]), AllKeys(m, m.rows[i + 1..]));
  }

  /** The first `i` rows are expanded into `done`. */
  ghost predicate Reached(contract: Contract, m: Matrix, i: nat, made: Expanded, done: seq<Key>) {
    && KeysDone(m, i, done) && Distinct(done)
    && RowsOk(contract, m, m.rows[..i])
    && Describes(made, contract, m, m.rows[..i], done)
  }

  lemma ReachedNext(contract: Contract, m: Matrix, i: nat, made: Expanded, done: seq<Key>)
    requires Reached(contract, m, i, made, done) && i < |m.rows|
    requires RowOk(contract, m, m.rows[i]) && Fresh(made.byGate[m.rows[i].gate], RowKeys(m, m.rows[i]))
    ensures var part := RowKeys(m, m.rows[i]);
            Reached(contract, m, i + 1, Added(made, m.rows[i], part), done + part)
  {
    var row, rows := m.rows[i], m.rows[..i];
    TakeNext(m.rows, i);
    KeysDoneNext(m, i, done);
    FreshMeansDistinct(made, contract, m, rows, done, row);
    RowsOkMore(contract, m, rows, row);
    DescribesMore(made, contract, m, rows, done, row);
  }

  lemma ReachedAgain(contract: Contract, m: Matrix, i: nat, made: Expanded, done: seq<Key>)
    requires Reached(contract, m, i, made, done) && i < |m.rows|
    requires RowOk(contract, m, m.rows[i]) && Distinct(AllKeys(m, m.rows))
    ensures Fresh(made.byGate[m.rows[i].gate], RowKeys(m, m.rows[i]))
  {
    KeysDoneNext(m, i, done);
    FreshMeansDistinct(made, contract, m, m.rows[..i], done, m.rows[i]);
  }

  lemma ReachedAtStart(contract: Contract, m: Matrix)
    ensures Reached(contract, m, 0, Start(contract), [])
  {
    assert m.rows[0..] == m.rows;
  }

  lemma ReachedAll(contract: Contract, m: Matrix, made: Expanded, done: seq<Key>)
    requires Reached(contract, m, |m.rows|, made, done)
    ensures RowsOk(contract, m, m.rows) && Distinct(AllKeys(m, m.rows))
    ensures Describes(made, contract, m, m.rows, AllKeys(m, m.rows))
  {
    assert m.rows[..|m.rows|] == m.rows;
    assert done == AllKeys(m, m.rows);
  }

  lemma ReachedNoFurther(contract: Contract, m: Matrix, i: nat, made: Expanded, done: seq<Key>)
    requires Reached(contract, m, i, made, done) && i < |m.rows|
    requires !(RowOk(contract, m, m.rows[i]) && Fresh(made.byGate[m.rows[i].gate], RowKeys(m, m.rows[i])))
    ensures !(RowsOk(contract, m, m.rows) && Distinct(AllKeys(m, m.rows)))
  {
    assert m.rows[i] in m.rows;
    if RowOk(contract, m, m.rows[i]) && Distinct(AllKeys(m, m.rows)) {
      ReachedAgain(contract, m, i, made, done);
    }
  }

  method ExpandRows(contract: Contract, m: Matrix) returns (r: Option<Expanded>)
    ensures r.Some? <==> RowsOk(contract, m, m.rows) && Distinct(AllKeys(m, m.rows))
    ensures r.Some? ==> Describes(r.value, contract, m, m.rows, AllKeys(m, m.rows))
  {
    ghost var done: seq<Key> := [];
    var made := Start(contract);
    ReachedAtStart(contract, m);
    for i := 0 to |m.rows|
      invariant Reached(contract, m, i, made, done)
    {
      r := ExpandRow(contract, m, made, m.rows[i]);
      if r.None? {
        ReachedNoFurther(contract, m, i, made, done);
        return;
      }
      ReachedNext(contract, m, i, made, done);
      made, done := r.value, done + RowKeys(m, m.rows[i]);
    }
    ReachedAll(contract, m, made, done);
    r := Some(made);
  }

  // ---------------------------------------------------------------------------
  // Counts and coverage
  // ---------------------------------------------------------------------------

  ghost function GateKeys(m: Matrix, g: string): set<Key> {
    set k | k in AllKeys(m, m.rows) && k.gate == g
  }

  ghost predicate RoleOk(m: Matrix, g: string, role: string) {
    && (exists k :: Needed(m, m.rows, g, role, k))
    && (role in ALWAYS_FULL ==> forall k :: k in GateKeys(m, g) ==> Needed(m, m.rows, g, role, k))
  }

  ghost predicate GateOk(m: Matrix, g: string, gate: Gate) {
    && |GateKeys(m, g)| == gate.expectedTuples
    && forall role :: role in EvidenceRoles(gate) ==> RoleOk(m, g, role)
  }

  /** What a reviewed matrix must satisfy. */
  ghost predicate Accepts(contract: Contract, m: Matrix) {
    && RowsOk(contract, m, m.rows)
    && Distinct(AllKeys(m, m.rows))
    && |AllKeys(m, m.rows)| == contract.expandedTupleCount
    && forall g :: g in contract.gates ==> GateOk(m, g, contract.gates[g])
  }

  predicate GateComplete(tuples: set<Key>, byRole: map<string, set<Key>>, expected: int) {
    && |tuples| == expected
    && (forall role :: role in byRole && role in ALWAYS_FULL ==> byRole[role] == tuples)
    && (forall role :: role in byRole ==> byRole[role] != {})
  }

  lemma NeededIsMade(m: Matrix, g: string, role: string, k: Key)
    requires Needed(m, m.rows, g, role, k)
    ensures k in GateKeys(m, g)
  {
    var row :| row in m.rows && row.gate == g && role in Applicable(row) && k in RowKeys(m, row);
    AllKeysMembers(m, m.rows, k);
    RowKeysGate(m, row);
  }

  lemma RoleCompleteMeans(m: Matrix, g: string, role: string, tuples: set<Key>, covered: set<Key>)
    requires tuples == GateKeys(m, g)
    requires forall k :: k in covered <==> Needed(m, m.rows, g, role, k)
    ensures covered != {} && (role in ALWAYS_FULL ==> covered == tuples) <==> RoleOk(m, g, role)
  {
    forall k | k in covered ensures k in tuples {
      NeededIsMade(m, g, role, k);
    }
    if covered != {} {
      var k :| k in covered;
      assert Needed(m, m.rows, g, role, k);
    }
  }

  lemma GateCompleteMeans(contract: Contract, m: Matrix, made: Expanded, g: string)
    requires Describes(made, contract, m, m.rows, AllKeys(m, m.rows)) && g in contract.gates
    ensures made.byGate[g] == GateKeys(m, g)
    ensures GateComplete(made.byGate[g], made.byRole[g], contract.gates[g].expectedTuples)
            <==> GateOk(m, g, contract.gates[g])
  {
    var byRole := made.byRole[g];
    assert made.byGate[g] == GateKeys(m, g);
    forall role | role in byRole
      ensures byRole[role] != {} && (role in ALWAYS_FULL ==> byRole[role] == made.byGate[g]) <==> RoleOk(m, g, role)
    {
      RoleCompleteMeans(m, g, role, made.byGate[g], byRole[role]);
    }
  }

  ghost function Within(ks: set<Key>, gates: set<string>): set<Key> {
    set k | k in ks && k.gate in gates
  }

  /** `byGate` divides `all` up by gate. */
  ghost predicate PartsOf(byGate: map<string, set<Key>>, all: set<Key>) {
    && (forall g, k :: g in byGate ==> (k in byGate[g] <==> k in all && k.gate == g))
    && (forall k :: k in all ==> k.gate in byGate)
  }

  method CountTuples(byGate: map<string, set<Key>>, ghost all: set<Key>) returns (total: nat)
    requires PartsOf(byGate, all)
    ensures total == |all|
  {
    total := 0;
    var left := byGate.Keys;
    while left != {}
      invariant left <= byGate.Keys
      invariant total == |Within(all, byGate.Keys - left)|
    {
      var g :| g in left;
      ghost var seen := byGate.Keys - left;
      assert byGate.Keys - (left - {g}) == seen + {g};
      assert Within(all, seen + {g}) == Within(all, seen) + byGate[g];
      total, left := total + |byGate[g]|, left - {g};
    }
    assert byGate.Keys - {} == byGate.Keys;
    assert Within(all, byGate.Keys) == all;
  }

  lemma AllGatesKnown(contract: Contract, m: Matrix)
    requires RowsOk(contract, m, m.rows)
    ensures forall k :: k in AllKeys(m, m.rows) ==> k.gate in contract.gates
  {
    forall k | k in AllKeys(m, m.rows) ensures k.gate in contract.gates {
      AllKeysMembers(m, m.rows, k);
      var row :| row in m.rows && k in RowKeys(m, row);
      RowKeysGate(m, row);
      assert RowOk(contract, m, row);
    }
  }

  lemma MadeInParts(made: Expanded, done: seq<Key>)
    requires GatesKnow(made, done)
    requires forall k :: k in done ==> k.gate in made.byGate
    ensures PartsOf(made.byGate, Elements(done))
  {
  }

  // ---------------------------------------------------------------------------
  // The contract
  // ---------------------------------------------------------------------------

  ghost predicate GateTuple(m: Matrix, g: string, k: Key) {
    exists row :: row in m.rows && row.gate == g && InProduct(m, row, k)
  }

  ghost predicate RoleTuple(m: Matrix, g: string, role: string, k: Key) {
    exists row ::
      && row in m.rows && row.gate == g && (role in row.policy.always || role in row.policy.required)
      && InProduct(m, row, k)
  }

  /** `e` holds the products of the rows: all of a gate's for the gate, and for a role those of the rows that
      apply it; every tuple is to be attested as its row says. */
  ghost predicate IsExpansion(e: Expanded, contract: Contract, m: Matrix) {
    && Fits(e, contract)
    && (forall g, k :: g in e.byGate ==> (k in e.byGate[g] <==> GateTuple(m, g, k)))
    && (forall g, role, k :: g in e.byRole && role in e.byRole[g] ==>
          (k in e.byRole[g][role] <==> RoleTuple(m, g, role, k)))
    && (forall g :: g in e.byGate ==> e.profiles[g].Keys == e.byGate[g])
    && (forall row, k :: row in m.rows && InProduct(m, row, k) ==>
          row.gate in e.profiles && k in e.profiles[row.gate] && e.profiles[row.gate][k] == row.profile)
  }

  lemma GateTupleMeans(m: Matrix, g: string, k: Key)
    ensures k in AllKeys(m, m.rows) && k.gate == g <==> GateTuple(m, g, k)
  {
    AllKeysMembers(m, m.rows, k);
    forall row | row in m.rows ensures k in RowKeys(m, row) <==> InProduct(m, row, k) {
      RowKeysAreProduct(m, row, k);
    }
  }

  lemma RoleTupleMeans(m: Matrix, g: string, role: string, k: Key)
    ensures Needed(m, m.rows, g, role, k) <==> RoleTuple(m, g, role, k)
  {
    forall row | row in m.rows ensures k in RowKeys(m, row) <==> InProduct(m, row, k) {
      RowKeysAreProduct(m, row, k);
    }
  }

  lemma DescribesExpansion(e: Expanded, contract: Contract, m: Matrix)
    requires Describes(e, contract, m, m.rows, AllKeys(m, m.rows))
    ensures IsExpansion(e, contract, m)
  {
    forall g, k | g in e.byGate ensures k in e.byGate[g] <==> GateTuple(m, g, k) {
      GateTupleMeans(m, g, k);
    }
    forall g, role, k | g in e.byRole && role in e.byRole[g]
      ensures k in e.byRole[g][role] <==> RoleTuple(m, g, role, k)
    {
      RoleTupleMeans(m, g, role, k);
    }
    forall row, k | row in m.rows && InProduct(m, row, k)
      ensures row.gate in e.profiles && k in e.profiles[row.gate] && e.profiles[row.gate][k] == row.profile
    {
      RowKeysAreProduct(m, row, k);
    }
  }

  method ExpandedMatrixContract(contract: Contract, m: Matrix) returns (r: Option<Expanded>)
    ensures r.Some? <==> Accepts(contract, m)
    ensures r.Some? ==> IsExpansion(r.value, contract, m)
  {
    r := ExpandRows(contract, m);
    if r.None? {
      return;
    }
    var made := r.value;
    AllGatesKnown(contract, m);
    MadeInParts(made, AllKeys(m, m.rows));
    DistinctMeansCount(AllKeys(m, m.rows));
    var total := CountTuples(made.byGate, Elements(AllKeys(m, m.rows)));
    if total != contract.expandedTupleCount {
      return None;
    }
    var left := contract.gates.Keys;
    while left != {}
      invariant left <= contract.gates.Keys
      invariant forall g :: g in contract.gates && g !in left ==> GateOk(m, g, contract.gates[g])
    {
      var g :| g in left;
      GateCompleteMeans(contract, m, made, g);
      if !GateComplete(made.byGate[g], made.byRole[g], contract.gates[g].expectedTuples) {
        return None;
      }
      left := left - {g};
    }
    DescribesExpansion(made, contract, m);
  }

  /** A role's tuples are among its gate's. */
  lemma RoleWithinGate(e: Expanded, contract: Contract, m: Matrix, g: string, role: string)
    requires IsExpansion(e, contract, m) && g in e.byRole && role in e.byRole[g]
    ensures e.byRole[g][role] <= e.byGate[g]
  {
    forall k | k in e.byRole[g][role] ensures k in e.byGate[g] {
      assert RoleTuple(m, g, role, k);
      assert GateTuple(m, g, k);
    }
  }
}
