/** Grouped report totals (scripts/agent-token-report.py, `summarize`). */
module TokenSummary {
  import opened Dict
  import opened Orders
  import opened TokenUsage

  datatype Dimension = Day | Project | Kind | Model

  function KeyOf(s: Sample, d: Dimension): string {
    match d
    case Day => s.day
    case Project => s.project
    case Kind => s.kind
    case Model => s.model
  }

  datatype Row = Row(key: string, usage: Usage)

  function InGroup(d: Dimension, key: string): Sample -> bool { (s: Sample) => KeyOf(s, d) == key }

  ghost predicate Occurs(samples: seq<Sample>, d: Dimension, key: string) {
    exists s :: s in samples && KeyOf(s, d) == key
  }

  /** The dictionary of one dimension after the given samples. */
  ghost predicate Grouped(group: Dict<Usage>, samples: seq<Sample>, d: Dimension) {
    && group.Valid()
    && (forall key :: key in group.vals <==> Occurs(samples, d, key))
    && forall key :: key in group.vals ==> group.vals[key] == SumIf(samples, InGroup(d, key))
  }

  lemma {:induction false} OccursAppend(samples: seq<Sample>, s: Sample, d: Dimension, key: string)
    ensures Occurs(samples + [s], d, key) <==> Occurs(samples, d, key) || KeyOf(s, d) == key
  {
    var more := samples + [s];
    assert forall t :: t in more <==> t in samples || t == s;
    if KeyOf(s, d) == key { assert s in more; }
    if Occurs(samples, d, key) {
      var t :| t in samples && KeyOf(t, d) == key;
      assert t in more;
    }
  }

  lemma {:induction false} EmptyGroup(samples: seq<Sample>, d: Dimension, key: string)
    requires !Occurs(samples, d, key)
    ensures SumIf(samples, InGroup(d, key)) == ZERO
  {
    if samples != [] {
      var init, last := samples[..|samples| - 1], samples[|samples| - 1];
      assert samples == init + [last];
      OccursAppend(init, last, d, key);
      EmptyGroup(init, d, key);
    }
  }

  /** `group[key] = group.get(key, Usage()) + sample.usage`. */
  function AddTo(group: Dict<Usage>, s: Sample, d: Dimension): Dict<Usage>
    requires group.Valid()
  {
    var key := KeyOf(s, d);
    group.Put(key, (if group.Has(key) then group.vals[key] else ZERO).Plus(s.usage))
  }

  lemma {:induction false} AddToKeeps(group: Dict<Usage>, samples: seq<Sample>, s: Sample, d: Dimension)
    requires Grouped(group, samples, d)
    ensures Grouped(AddTo(group, s, d), samples + [s], d)
  {
    var key := KeyOf(s, d);
    if key !in group.vals {
      EmptyGroup(samples, d, key);
    }
    var after := AddTo(group, s, d);
    forall k ensures k in after.vals <==> Occurs(samples + [s], d, k) {
      OccursAppend(samples, s, d, k);
    }
    forall k | k in after.vals ensures after.vals[k] == SumIf(samples + [s], InGroup(d, k)) {
      SumIfAppend(samples, s, InGroup(d, k));
    }
  }

  ghost predicate Listed(rows: seq<Row>, key: string) { exists r :: r in rows && r.key == key }

  /** The rows of a finished group: sorted by key, one per key that occurs, holding the sum of exactly its samples. */
  ghost predicate RowsOf(rows: seq<Row>, samples: seq<Sample>, d: Dimension) {
    && (forall i, j :: 0 <= i < j < |rows| ==> StrLt(rows[i].key, rows[j].key))
    && (forall key :: Listed(rows, key) <==> Occurs(samples, d, key))
    && forall r :: r in rows ==> r.usage == SumIf(samples, InGroup(d, r.key))
  }

  lemma {:induction false} SortedKeysGiveRows(rows: seq<Row>, keys: seq<string>, group: Dict<Usage>,
                                              samples: seq<Sample>, d: Dimension)
    requires Grouped(group, samples, d) && |rows| == |keys| && StrictlySorted(StrLt, keys)
    requires forall key :: key in keys <==> key in group.vals
    requires forall i :: 0 <= i < |rows| ==> keys[i] in group.vals && rows[i] == Row(keys[i], group.vals[keys[i]])
    ensures RowsOf(rows, samples, d)
  {
    forall key ensures Listed(rows, key) <==> Occurs(samples, d, key) {
      if key in keys { var i :| 0 <= i < |keys| && keys[i] == key; assert rows[i] in rows; }
    }
  }

  lemma KeysSorted(group: Dict<Usage>, samples: seq<Sample>, d: Dimension)
    requires Grouped(group, samples, d)
    ensures var keys := Sort(StrLt, group.keys);
            && StrictlySorted(StrLt, keys) && (forall key :: key in keys <==> key in group.vals)
            && forall i :: 0 <= i < |keys| ==> keys[i] in group.vals
  {
    StrTotal();
    SortSorts(StrLt, group.keys);
    var keys := Sort(StrLt, group.keys);
    forall i | 0 <= i < |keys| ensures keys[i] in group.vals { assert keys[i] in keys; }
  }

  /** One row per key, in the order of the keys. */
  method RowsFor(group: Dict<Usage>, keys: seq<string>) returns (rows: seq<Row>)
    requires forall i :: 0 <= i < |keys| ==> keys[i] in group.vals
    ensures |rows| == |keys| && forall i :: 0 <= i < |rows| ==> rows[i] == Row(keys[i], group.vals[keys[i]])
  {
    rows := [];
    for i := 0 to |keys|
      invariant |rows| == i
      invariant forall j :: 0 <= j < i ==> rows[j] == Row(keys[j], group.vals[keys[j]])
    {
      rows := rows + [Row(keys[i], group.vals[keys[i]])];
    }
  }

  /** `sorted(group.items())`. */
  method SortedRows(group: Dict<Usage>, ghost samples: seq<Sample>, ghost d: Dimension) returns (rows: seq<Row>)
    requires Grouped(group, samples, d)
    ensures RowsOf(rows, samples, d)
  {
    var keys := Sort(StrLt, group.keys);
    KeysSorted(group, samples, d);
    rows := RowsFor(group, keys);
    SortedKeysGiveRows(rows, keys, group, samples, d);
  }

  /** `summarize`: the overall total and one sorted table per dimension. */
  method Summarize(samples: seq<Sample>)
    returns (total: Usage, byDay: seq<Row>, byProject: seq<Row>, byKind: seq<Row>, byModel: seq<Row>)
    ensures total == Sum(samples)
    ensures RowsOf(byDay, samples, Day) && RowsOf(byProject, samples, Project)
    ensures RowsOf(byKind, samples, Kind) && RowsOf(byModel, samples, Model)
  {
    total := ZERO;
    var days, projects, kinds, models := Empty<Usage>(), Empty<Usage>(), Empty<Usage>(), Empty<Usage>();
    for i := 0 to |samples|
      invariant total == Sum(samples[..i])
      invariant Grouped(days, samples[..i], Day) && Grouped(projects, samples[..i], Project)
      invariant Grouped(kinds, samples[..i], Kind) && Grouped(models, samples[..i], Model)
    {
      var s, done := samples[i], samples[..i];
      assert samples[..i + 1] == done + [s];
      SumAppend(done, s);
      AddToKeeps(days, done, s, Day);
      AddToKeeps(projects, done, s, Project);
      AddToKeeps(kinds, done, s, Kind);
      AddToKeeps(models, done, s, Model);
      total := total.Plus(s.usage);
      days, projects := AddTo(days, s, Day), AddTo(projects, s, Project);
      kinds, models := AddTo(kinds, s, Kind), AddTo(models, s, Model);
    }
    assert samples[..|samples|] == samples;
    byDay := SortedRows(days, samples, Day);
    byProject := SortedRows(projects, samples, Project);
    byKind := SortedRows(kinds, samples, Kind);
    byModel := SortedRows(models, samples, Model);
  }

  // ----- Conservation -----

  function RowSum(rows: seq<Row>): Usage {
    if rows == [] then ZERO else RowSum(rows[..|rows| - 1]).Plus(rows[|rows| - 1].usage)
  }

  function RowIndex(rows: seq<Row>): real {
    if rows == [] then 0.0 else RowIndex(rows[..|rows| - 1]) + rows[|rows| - 1].usage.Index()
  }

  /** Samples whose key is among the first rows. */
  function Covered(rows: seq<Row>, d: Dimension): Sample -> bool {
    (s: Sample) => exists r :: r in rows && r.key == KeyOf(s, d)
  }

  lemma {:induction false} RowsPartition(rows: seq<Row>, samples: seq<Sample>, d: Dimension)
    requires forall i, j :: 0 <= i < j < |rows| ==> rows[i].key != rows[j].key
    requires forall r :: r in rows ==> r.usage == SumIf(samples, InGroup(d, r.key))
    ensures RowSum(rows) == SumIf(samples, Covered(rows, d))
  {
    if rows == [] {
      NothingCovered(samples, Covered(rows, d));
    } else {
      var init, last := rows[..|rows| - 1], rows[|rows| - 1];
      assert rows == init + [last];
      RowsPartition(init, samples, d);
      SplitSum(samples, Covered(rows, d), Covered(init, d), InGroup(d, last.key));
    }
  }

  lemma {:induction false} NothingCovered(samples: seq<Sample>, p: Sample -> bool)
    requires forall s :: !p(s)
    ensures SumIf(samples, p) == ZERO
  {
    if samples != [] {
      NothingCovered(samples[..|samples| - 1], p);
    }
  }

  lemma {:induction false} AllCovered(samples: seq<Sample>, p: Sample -> bool)
    requires forall s :: s in samples ==> p(s)
    ensures SumIf(samples, p) == Sum(samples)
  {
    if samples != [] {
      assert samples == samples[..|samples| - 1] + [samples[|samples| - 1]];
      AllCovered(samples[..|samples| - 1], p);
    }
  }

  lemma {:induction false} RowIndexIsIndexOfSum(rows: seq<Row>)
    ensures RowIndex(rows) == RowSum(rows).Index()
  {
    if rows != [] {
      RowIndexIsIndexOfSum(rows[..|rows| - 1]);
      IndexAdditive(RowSum(rows[..|rows| - 1]), rows[|rows| - 1].usage);
    }
  }

  /** Whatever the dimension, the groups add up to the overall total in every field, and so do their weighted
      indices. */
  lemma {:induction false} GroupsConserve(rows: seq<Row>, samples: seq<Sample>, d: Dimension)
    requires RowsOf(rows, samples, d)
    ensures RowSum(rows) == Sum(samples)
    ensures RowIndex(rows) == Sum(samples).Index()
  {
    StrTotal();
    assert forall i, j :: 0 <= i < j < |rows| ==> rows[i].key != rows[j].key;
    RowsPartition(rows, samples, d);
    forall s | s in samples ensures Covered(rows, d)(s) {
      assert Occurs(samples, d, KeyOf(s, d));
      assert Listed(rows, KeyOf(s, d));
    }
    AllCovered(samples, Covered(rows, d));
    RowIndexIsIndexOfSum(rows);
  }

  /** A sum never reports more large-context turns than turns when its samples do not. */
  lemma {:induction false} LargeContextBounded(samples: seq<Sample>, p: Sample -> bool)
    requires forall s :: s in samples ==> s.usage.largeContextTurns <= s.usage.turns
    ensures SumIf(samples, p).largeContextTurns <= SumIf(samples, p).turns
  {
    if samples != [] {
      assert samples == samples[..|samples| - 1] + [samples[|samples| - 1]];
      LargeContextBounded(samples[..|samples| - 1], p);
    }
  }

  lemma {:induction false} TurnsAreSamples(samples: seq<Sample>)
    requires SingleTurns(samples)
    ensures Sum(samples).turns == |samples|
  {
    if samples != [] {
      assert samples == samples[..|samples| - 1] + [samples[|samples| - 1]];
      TurnsAreSamples(samples[..|samples| - 1]);
    }
  }

  ghost predicate ContextsBounded(rows: seq<Row>) {
    forall r :: r in rows ==> r.usage.largeContextTurns <= r.usage.turns
  }

  function TurnsIn(rows: seq<Row>): nat {
    if rows == [] then 0 else TurnsIn(rows[..|rows| - 1]) + rows[|rows| - 1].usage.turns
  }

  lemma {:induction false} TurnsOfSum(rows: seq<Row>)
    ensures TurnsIn(rows) == RowSum(rows).turns
  {
    if rows != [] { TurnsOfSum(rows[..|rows| - 1]); }
  }

  /** In every table no row reports more large-context turns than turns, and the rows have one turn per sample. */
  lemma {:induction false} RowsBounded(rows: seq<Row>, samples: seq<Sample>, d: Dimension)
    requires RowsOf(rows, samples, d) && SingleTurns(samples)
    ensures ContextsBounded(rows) && TurnsIn(rows) == |samples|
  {
    forall r | r in rows ensures r.usage.largeContextTurns <= r.usage.turns {
      LargeContextBounded(samples, InGroup(d, r.key));
    }
    GroupsConserve(rows, samples, d);
    TurnsOfSum(rows);
    TurnsAreSamples(samples);
  }
}
