/** The reviewed runtime matrix: expanding its rows into the tuples every gate and every evidence role
    must cover. */
module EvidenceMatrix {
  import opened Wrappers
  import opened Sequences

  /** A tuple's eight fields; the code joins them into one JSON text. */
  datatype Key = Key(
    gate: string, row: string, platform: string, runtime: string,
    cell: string, locale: string, ordering: string, sample: string)

  /** What a rule or a row may set; a missing field is left to the next source. */
  datatype Choice = Choice(locales: Option<seq<string>>, orderings: Option<seq<string>>, sampleSet: Option<string>)

  datatype Rule = Rule(cells: seq<string>, choice: Choice)

  datatype Policy = Policy(always: seq<string>, required: seq<string>, notApplicable: seq<string>)

  datatype Row = Row(
    gate: string, id: string, platform: string, runtime: string, policy: Policy, profile: string,
    cellSets: seq<string>, cells: seq<string>, choice: Choice, orderingFilter: Option<seq<string>>)

  datatype Matrix = Matrix(
    rows: seq<Row>, cellSets: map<string, seq<string>>, rules: seq<Rule>,
    locales: seq<string>, orderings: seq<string>, sampleSet: string, sampleSets: map<string, seq<string>>)

  datatype Gate = Gate(roles: set<string>, expectedTuples: int)

  datatype Contract = Contract(gates: map<string, Gate>, expandedTupleCount: int)

  datatype Expanded = Expanded(
    byGate: map<string, set<Key>>,
    byRole: map<string, map<string, set<Key>>>,
    profiles: map<string, map<Key, string>>)

  const PROFILES: set<string> := {
    "direct_runtime", "direct_runtime_secondary_native", "station_command", "station_control_plane",
    "station_turn", "client_capability_turn", "station_capability_turn", "contract_only",
    "unavailable_runtime", "orchestration_guard", "non_advertised"}

  const GENERATED: set<string> := {"source-identity", "role-schema-report", "runner-attestation"}

  const ALWAYS_FULL: set<string> := {"cell-results", "runtime-attestation-set"}

  // ---------------------------------------------------------------------------
  // What one cell of a row expands to
  // ---------------------------------------------------------------------------

  function Merge<T>(low: Option<T>, high: Option<T>): Option<T> {
    if high.Some? then high else low
  }

  function Overlay(low: Choice, high: Choice): Choice {
    Choice(Merge(low.locales, high.locales), Merge(low.orderings, high.orderings), Merge(low.sampleSet, high.sampleSet))
  }

  /** The fields the rules set for a cell. */
  function Ruled(rules: seq<Rule>, cell: string): Choice {
    if rules == [] then Choice(None, None, None)
    else
      var rule := rules[|rules| - 1];
      var earlier := Ruled(rules[..|rules| - 1], cell);
      if cell in rule.cells then Overlay(earlier, rule.choice) else earlier
  }

  /** From rule `i` on no rule for `cell` sets the field. */
  ghost predicate UnsetFrom<T(!new)>(rules: seq<Rule>, cell: string, field: Choice -> Option<T>, i: nat) {
    forall j :: i <= j < |rules| && cell in rules[j].cells ==> field(rules[j].choice).None?
  }

  ghost predicate SetBy<T(!new)>(rules: seq<Rule>, cell: string, field: Choice -> Option<T>, v: Option<T>, i: nat) {
    && i < |rules| && cell in rules[i].cells && field(rules[i].choice) == v
    && UnsetFrom(rules, cell, field, i + 1)
  }

  /** `v` is what the last rule for `cell` that sets the field sets it to. */
  ghost predicate FromLastRule<T(!new)>(rules: seq<Rule>, cell: string, field: Choice -> Option<T>, v: Option<T>) {
    if v.None? then UnsetFrom(rules, cell, field, 0) else exists i: nat :: SetBy(rules, cell, field, v, i)
  }

  lemma FieldOverlay<T(!new)>(rules: seq<Rule>, cell: string, field: Choice -> Option<T>, low: Choice)
    requires rules != []
    requires FromLastRule(rules[..|rules| - 1], cell, field, field(low))
    requires forall high :: field(Overlay(low, high)) == Merge(field(low), field(high))
    ensures var rule := rules[|rules| - 1];
            FromLastRule(rules, cell, field, field(if cell in rule.cells then Overlay(low, rule.choice) else low))
  {
    var n := |rules| - 1;
    var front := rules[..n];
    if cell in rules[n].cells && field(rules[n].choice).Some? {
      assert SetBy(rules, cell, field, field(rules[n].choice), n);
    } else if field(low).Some? {
      var i: nat :| SetBy(front, cell, field, field(low), i);
      assert front[i] == rules[i];
      assert UnsetFrom(rules, cell, field, i + 1) by {
        assert forall j :: i < j < n ==> front[j] == rules[j];
      }
      assert SetBy(rules, cell, field, field(low), i);
    } else {
      assert forall j :: 0 <= j < n ==> front[j] == rules[j];
    }
  }

  /** A field that overlays field by field is taken from the last rule that sets it. */
  lemma {:induction false} FieldFromLastRule<T(!new)>(rules: seq<Rule>, cell: string, field: Choice -> Option<T>)
    requires field(Choice(None, None, None)).None?
    requires forall low, high :: field(Overlay(low, high)) == Merge(field(low), field(high))
    ensures FromLastRule(rules, cell, field, field(Ruled(rules, cell)))
  {
    if rules != [] {
      var front := rules[..|rules| - 1];
      FieldFromLastRule(front, cell, field);
      FieldOverlay(rules, cell, field, Ruled(front, cell));
    }
  }

  /** Of several rules for a cell the last one that sets a field decides it. */
  lemma LastRuleWins(rules: seq<Rule>, cell: string)
    ensures FromLastRule(rules, cell, (c: Choice) => c.locales, Ruled(rules, cell).locales)
    ensures FromLastRule(rules, cell, (c: Choice) => c.orderings, Ruled(rules, cell).orderings)
    ensures FromLastRule(rules, cell, (c: Choice) => c.sampleSet, Ruled(rules, cell).sampleSet)
  {
    FieldFromLastRule(rules, cell, (c: Choice) => c.locales);
    FieldFromLastRule(rules, cell, (c: Choice) => c.orderings);
    FieldFromLastRule(rules, cell, (c: Choice) => c.sampleSet);
  }

  /** A cell's choices: the rules before the row before the defaults. */
  function Chosen(m: Matrix, row: Row, cell: string): Choice {
    Overlay(Overlay(Choice(Some(m.locales), Some(m.orderings), Some(m.sampleSet)), row.choice), Ruled(m.rules, cell))
  }

  function Kept(orderings: seq<string>, allowed: seq<string>): seq<string> {
    if orderings == [] then []
    else
      var n := |orderings| - 1;
      Kept(orderings[..n], allowed) + (if orderings[n] in allowed then [orderings[n]] else [])
  }

  function Locales(m: Matrix, row: Row, cell: string): seq<string> {
    Chosen(m, row, cell).locales.value
  }

  function Orderings(m: Matrix, row: Row, cell: string): seq<string> {
    var all := Chosen(m, row, cell).orderings.value;
    if row.orderingFilter.Some? then Kept(all, row.orderingFilter.value) else all
  }

  function Samples(m: Matrix, row: Row, cell: string): seq<string> {
    var name := Chosen(m, row, cell).sampleSet.value;
    if name in m.sampleSets then m.sampleSets[name] else []
  }

  lemma {:induction false} KeptMembers(orderings: seq<string>, allowed: seq<string>, x: string)
    ensures x in Kept(orderings, allowed) <==> x in orderings && x in allowed
  {
    if orderings != [] {
      var n := |orderings| - 1;
      KeptMembers(orderings[..n], allowed, x);
      assert orderings == orderings[..n] + [orderings[n]];
    }
  }

  // ---------------------------------------------------------------------------
  // Tuples in the order in which they are made
  // ---------------------------------------------------------------------------

  function SampleKeys(k: Key, samples: seq<string>): seq<Key> {
    if samples == [] then [] else [k.(sample := samples[0])] + SampleKeys(k, samples[1..])
  }

  function OrderingKeys(k: Key, orderings: seq<string>, samples: seq<string>): seq<Key> {
    if orderings == [] then []
    else SampleKeys(k.(ordering := orderings[0]), samples) + OrderingKeys(k, orderings[1..], samples)
  }

  function LocaleKeys(k: Key, locales: seq<string>, orderings: seq<string>, samples: seq<string>): seq<Key> {
    if locales == [] then []
    else OrderingKeys(k.(locale := locales[0]), orderings, samples) + LocaleKeys(k, locales[1..], orderings, samples)
  }

  function Place(row: Row, cell: string): Key {
    Key(row.gate, row.id, row.platform, row.runtime, cell, "", "", "")
  }

  function CellKeys(m: Matrix, row: Row, cell: string): seq<Key> {
    LocaleKeys(Place(row, cell), Locales(m, row, cell), Orderings(m, row, cell), Samples(m, row, cell))
  }

  function CellsKeys(m: Matrix, row: Row, cells: seq<string>): seq<Key> {
    if cells == [] then [] else CellKeys(m, row, cells[0]) + CellsKeys(m, row, cells[1..])
  }

  /** The cells of the named sets, then the row's own. */
  function SetCells(m: Matrix, names: seq<string>): seq<string> {
    if names == [] then []
    else
      var name := names[|names| - 1];
      SetCells(m, names[..|names| - 1]) + (if name in m.cellSets then m.cellSets[name] else [])
  }

  /** Every cell once, where it first stands. */
  function Once(cells: seq<string>): seq<string> {
    if cells == [] then []
    else
      var front, last := Once(cells[..|cells| - 1]), cells[|cells| - 1];
      if last in front then front else front + [last]
  }

  function RowKeys(m: Matrix, row: Row): seq<Key> {
    CellsKeys(m, row, Once(SetCells(m, row.cellSets) + row.cells))
  }

  function AllKeys(m: Matrix, rows: seq<Row>): seq<Key> {
    if rows == [] then [] else RowKeys(m, rows[0]) + AllKeys(m, rows[1..])
  }

  // ---------------------------------------------------------------------------
  // The expansion is the product
  // ---------------------------------------------------------------------------

  predicate RowCell(m: Matrix, row: Row, cell: string) {
    cell in row.cells || exists name :: name in row.cellSets && name in m.cellSets && cell in m.cellSets[name]
  }

  /** `k` is in the product that `row` stands for. */
  predicate InProduct(m: Matrix, row: Row, k: Key) {
    && k.gate == row.gate && k.row == row.id && k.platform == row.platform && k.runtime == row.runtime
    && RowCell(m, row, k.cell)
    && k.locale in Locales(m, row, k.cell)
    && k.ordering in Chosen(m, row, k.cell).orderings.value
    && (row.orderingFilter.Some? ==> k.ordering in row.orderingFilter.value)
    && k.sample in Samples(m, row, k.cell)
  }

  lemma {:induction false} SampleKeysMembers(k: Key, samples: seq<string>, x: Key)
    ensures x in SampleKeys(k, samples) <==> x.sample in samples && x.(sample := k.sample) == k
  {
    if samples != [] {
      SampleKeysMembers(k, samples[1..], x);
      assert samples == [samples[0]] + samples[1..];
    }
  }

  lemma {:induction false} OrderingKeysMembers(k: Key, orderings: seq<string>, samples: seq<string>, x: Key)
    ensures x in OrderingKeys(k, orderings, samples) <==>
            x.ordering in orderings && x.sample in samples && x.(ordering := k.ordering, sample := k.sample) == k
  {
    if orderings != [] {
      OrderingKeysMembers(k, orderings[1..], samples, x);
      SampleKeysMembers(k.(ordering := orderings[0]), samples, x);
      assert orderings == [orderings[0]] + orderings[1..];
    }
  }

  lemma {:induction false} LocaleKeysMembers(
    k: Key, locales: seq<string>, orderings: seq<string>, samples: seq<string>, x: Key)
    ensures x in LocaleKeys(k, locales, orderings, samples) <==>
            && x.locale in locales && x.ordering in orderings && x.sample in samples
            && x.(locale := k.locale, ordering := k.ordering, sample := k.sample) == k
  {
    if locales != [] {
      LocaleKeysMembers(k, locales[1..], orderings, samples, x);
      OrderingKeysMembers(k.(locale := locales[0]), orderings, samples, x);
      assert locales == [locales[0]] + locales[1..];
    }
  }

  lemma {:induction false} CellsKeysMembers(m: Matrix, row: Row, cells: seq<string>, x: Key)
    ensures x in CellsKeys(m, row, cells) <==> x.cell in cells && x in CellKeys(m, row, x.cell)
  {
    if cells != [] {
      CellsKeysMembers(m, row, cells[1..], x);
      assert cells == [cells[0]] + cells[1..];
      CellKeysCell(m, row, cells[0], x);
    }
  }

  lemma CellKeysCell(m: Matrix, row: Row, cell: string, x: Key)
    ensures x in CellKeys(m, row, cell) ==> x.cell == cell
  {
    LocaleKeysMembers(
      Place(row, cell), Locales(m, row, cell), Orderings(m, row, cell), Samples(m, row, cell), x);
  }

  lemma {:induction false} SetCellsMembers(m: Matrix, names: seq<string>, cell: string)
    ensures cell in SetCells(m, names) <==>
            exists name :: name in names && name in m.cellSets && cell in m.cellSets[name]
  {
    if names != [] {
      var n := |names| - 1;
      SetCellsMembers(m, names[..n], cell);
      assert names == names[..n] + [names[n]];
    }
  }

  lemma {:induction false} OnceMembers(cells: seq<string>)
    ensures forall cell :: cell in Once(cells) <==> cell in cells
    ensures Distinct(Once(cells))
  {
    if cells != [] {
      var n := |cells| - 1;
      OnceMembers(cells[..n]);
      assert cells == cells[..n] + [cells[n]];
    }
  }

  /** A row makes exactly the tuples of its product. */
  lemma RowKeysAreProduct(m: Matrix, row: Row, k: Key)
    ensures k in RowKeys(m, row) <==> InProduct(m, row, k)
  {
    var cells := SetCells(m, row.cellSets) + row.cells;
    OnceMembers(cells);
    SetCellsMembers(m, row.cellSets, k.cell);
    CellsKeysMembers(m, row, Once(cells), k);
    LocaleKeysMembers(
      Place(row, k.cell), Locales(m, row, k.cell), Orderings(m, row, k.cell), Samples(m, row, k.cell), k);
    if row.orderingFilter.Some? {
      KeptMembers(Chosen(m, row, k.cell).orderings.value, row.orderingFilter.value, k.ordering);
    }
  }

  lemma {:induction false} AllKeysMembers(m: Matrix, rows: seq<Row>, k: Key)
    ensures k in AllKeys(m, rows) <==> exists row :: row in rows && k in RowKeys(m, row)
  {
    if rows != [] {
      AllKeysMembers(m, rows[1..], k);
      assert rows == [rows[0]] + rows[1..];
    }
  }

  // ---------------------------------------------------------------------------
  // When no tuple is made twice
  // ---------------------------------------------------------------------------

  lemma {:induction false} SampleKeysDistinct(k: Key, samples: seq<string>)
    ensures Distinct(SampleKeys(k, samples)) <==> Distinct(samples)
    ensures SampleKeys(k, samples) == [] <==> samples == []
  {
    if samples != [] {
      SampleKeysDistinct(k, samples[1..]);
      DistinctHead(samples);
      DistinctHead(SampleKeys(k, samples));
      SampleKeysMembers(k, samples[1..], k.(sample := samples[0]));
    }
  }

  lemma {:induction false} OrderingKeysDistinct(k: Key, orderings: seq<string>, samples: seq<string>)
    ensures OrderingKeys(k, orderings, samples) == [] <==> orderings == [] || samples == []
    ensures Distinct(OrderingKeys(k, orderings, samples)) <==>
            orderings == [] || samples == [] || (Distinct(orderings) && Distinct(samples))
  {
    if orderings != [] {
      var first, rest := k.(ordering := orderings[0]), orderings[1..];
      OrderingKeysDistinct(k, rest, samples);
      SampleKeysDistinct(first, samples);
      DistinctHead(orderings);
      DistinctConcat(SampleKeys(first, samples), OrderingKeys(k, rest, samples));
      if samples != [] {
        var x := first.(sample := samples[0]);
        SampleKeysMembers(first, samples, x);
        OrderingKeysMembers(k, rest, samples, x);
        forall y | y in SampleKeys(first, samples)
          ensures y in OrderingKeys(k, rest, samples) ==> orderings[0] in rest
        {
          SampleKeysMembers(first, samples, y);
          OrderingKeysMembers(k, rest, samples, y);
        }
      }
    }
  }

  lemma {:induction false} LocaleKeysDistinct(
    k: Key, locales: seq<string>, orderings: seq<string>, samples: seq<string>)
    ensures Distinct(LocaleKeys(k, locales, orderings, samples)) <==>
            || locales == [] || orderings == [] || samples == []
            || (Distinct(locales) && Distinct(orderings) && Distinct(samples))
  {
    if locales != [] {
      var first, rest := k.(locale := locales[0]), locales[1..];
      LocaleKeysDistinct(k, rest, orderings, samples);
      OrderingKeysDistinct(first, orderings, samples);
      DistinctHead(locales);
      DistinctConcat(OrderingKeys(first, orderings, samples), LocaleKeys(k, rest, orderings, samples));
      if orderings != [] && samples != [] {
        var x := first.(ordering := orderings[0], sample := samples[0]);
        OrderingKeysMembers(first, orderings, samples, x);
        LocaleKeysMembers(k, rest, orderings, samples, x);
      }
      forall y | y in OrderingKeys(first, orderings, samples)
        ensures y in LocaleKeys(k, rest, orderings, samples) ==> locales[0] in rest
      {
        OrderingKeysMembers(first, orderings, samples, y);
        LocaleKeysMembers(k, rest, orderings, samples, y);
      }
    }
  }

  /** The lists a cell is multiplied from have no repetition, unless one of them is empty. */
  ghost predicate CellApart(m: Matrix, row: Row, cell: string) {
    var locales, orderings, samples := Locales(m, row, cell), Orderings(m, row, cell), Samples(m, row, cell);
    || locales == [] || orderings == [] || samples == []
    || (Distinct(locales) && Distinct(orderings) && Distinct(samples))
  }

  ghost predicate CellsApart(m: Matrix, row: Row, cells: seq<string>) {
    forall cell :: cell in cells ==> CellApart(m, row, cell)
  }

  lemma CellKeysApart(m: Matrix, row: Row, cell: string, cells: seq<string>)
    requires cell !in cells
    ensures Apart(CellKeys(m, row, cell), CellsKeys(m, row, cells))
  {
    forall x | x in CellKeys(m, row, cell) ensures x !in CellsKeys(m, row, cells) {
      CellKeysCell(m, row, cell, x);
      CellsKeysMembers(m, row, cells, x);
    }
  }

  lemma {:induction false} CellsKeysDistinct(m: Matrix, row: Row, cells: seq<string>)
    requires Distinct(cells)
    ensures Distinct(CellsKeys(m, row, cells)) <==> CellsApart(m, row, cells)
  {
    if cells != [] {
      var first, rest := cells[0], cells[1..];
      DistinctHead(cells);
      CellsKeysDistinct(m, row, rest);
      LocaleKeysDistinct(Place(row, first), Locales(m, row, first), Orderings(m, row, first), Samples(m, row, first));
      DistinctConcat(CellKeys(m, row, first), CellsKeys(m, row, rest));
      CellKeysApart(m, row, first, rest);
      assert CellsApart(m, row, cells) <==> CellApart(m, row, first) && CellsApart(m, row, rest) by {
        assert cells == [first] + rest;
      }
    }
  }

  ghost predicate NoListRepeats(m: Matrix, row: Row) {
    forall cell :: RowCell(m, row, cell) ==> CellApart(m, row, cell)
  }

  /** A row makes no tuple twice exactly when no list of one of its cells repeats a value. */
  lemma RowKeysDistinct(m: Matrix, row: Row)
    ensures Distinct(RowKeys(m, row)) <==> NoListRepeats(m, row)
  {
    var cells := SetCells(m, row.cellSets) + row.cells;
    OnceMembers(cells);
    CellsKeysDistinct(m, row, Once(cells));
    forall cell ensures cell in Once(cells) <==> RowCell(m, row, cell) {
      SetCellsMembers(m, row.cellSets, cell);
    }
  }

  ghost predicate RowsApart(m: Matrix, a: Row, b: Row) {
    forall k :: InProduct(m, a, k) ==> !InProduct(m, b, k)
  }

  ghost predicate ApartFromAll(m: Matrix, row: Row, rest: seq<Row>) {
    forall i :: 0 <= i < |rest| ==> RowsApart(m, row, rest[i])
  }

  lemma RowApartFromRest(m: Matrix, row: Row, rest: seq<Row>)
    ensures Apart(RowKeys(m, row), AllKeys(m, rest)) <==> ApartFromAll(m, row, rest)
  {
    if Apart(RowKeys(m, row), AllKeys(m, rest)) {
      forall i, k | 0 <= i < |rest| && InProduct(m, row, k) ensures !InProduct(m, rest[i], k) {
        RowKeysAreProduct(m, row, k);
        RowKeysAreProduct(m, rest[i], k);
        AllKeysMembers(m, rest, k);
      }
    }
    if ApartFromAll(m, row, rest) {
      forall k | k in RowKeys(m, row) ensures k !in AllKeys(m, rest) {
        RowKeysAreProduct(m, row, k);
        AllKeysMembers(m, rest, k);
        forall i | 0 <= i < |rest| ensures k !in RowKeys(m, rest[i]) {
          RowKeysAreProduct(m, rest[i], k);
          assert RowsApart(m, row, rest[i]);
        }
      }
    }
  }

  ghost predicate PairwiseApart(m: Matrix, rows: seq<Row>) {
    forall i, j :: 0 <= i < j < |rows| ==> RowsApart(m, rows[i], rows[j])
  }

  lemma PairwiseApartHead(m: Matrix, rows: seq<Row>)
    requires rows != []
    ensures PairwiseApart(m, rows) <==> ApartFromAll(m, rows[0], rows[1..]) && PairwiseApart(m, rows[1..])
  {
    var rest := rows[1..];
    assert forall i :: 0 <= i < |rest| ==> rest[i] == rows[i + 1];
    if ApartFromAll(m, rows[0], rest) && PairwiseApart(m, rest) {
      forall i, j | 0 <= i < j < |rows| ensures RowsApart(m, rows[i], rows[j]) {
        assert rows[j] == rest[j - 1];
        if i > 0 {
          assert rows[i] == rest[i - 1];
        }
      }
    }
  }

  /** No tuple is made twice exactly when no list repeats a value and the products of any two rows are disjoint. */
  lemma {:induction false} AllKeysDistinct(m: Matrix, rows: seq<Row>)
    ensures Distinct(AllKeys(m, rows)) <==>
            (forall row :: row in rows ==> NoListRepeats(m, row)) && PairwiseApart(m, rows)
  {
    if rows != [] {
      var first, rest := rows[0], rows[1..];
      AllKeysDistinct(m, rest);
      RowKeysDistinct(m, first);
      RowApartFromRest(m, first, rest);
      DistinctConcat(RowKeys(m, first), AllKeys(m, rest));
      PairwiseApartHead(m, rows);
      assert rows == [first] + rest;
    }
  }
}
