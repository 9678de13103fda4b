/** What the Codex deltas add up to, over a whole session file with counter resets. */
module CodexCounters {
  import opened Json
  import opened Orders
  import opened TokenUsage
  import opened CodexLog

  function ReadingIn(record: Fields): seq<Counters> {
    if IsTokenCount(record) && Totals(record) != map[] then [Reading(record)] else []
  }

  /** The cumulative readings of a file, in order. */
  function Readings(records: seq<Fields>): seq<Counters> {
    if records == [] then []
    else Readings(records[..|records| - 1]) + ReadingIn(records[|records| - 1])
  }

  function Latest(cs: seq<Counters>): Counters { if cs == [] then START else cs[|cs| - 1] }

  /** Sum of one counter's deltas over the readings. */
  function Added(cs: seq<Counters>, f: Field): nat {
    if cs == [] then 0
    else
      var init := cs[..|cs| - 1];
      Added(init, f) + Delta(Latest(init), cs[|cs| - 1]).At(f)
  }

  // ----- Samples carry exactly the deltas -----

  ghost predicate AllDated(records: seq<Fields>, dayOf: DayOf) {
    forall i :: 0 <= i < |records| && IsTokenCount(records[i]) ==> DayIn(records[i], dayOf) != ""
  }

  lemma {:induction false} AddedAppend(cs: seq<Counters>, c: Counters, f: Field)
    ensures Added(cs + [c], f) == Added(cs, f) + Delta(Latest(cs), c).At(f)
  {
    assert (cs + [c])[..|cs|] == cs;
  }

  lemma {:induction false} BaselineIsLatest(records: seq<Fields>, since: string, filter: string, dayOf: DayOf)
    ensures Run(records, since, filter, dayOf).previous == Latest(Readings(records))
  {
    if records != [] {
      var before := records[..|records| - 1];
      BaselineIsLatest(before, since, filter, dayOf);
      RunStep(records, since, filter, dayOf);
      StepBaseline(Run(before, since, filter, dayOf), records[|records| - 1], since, filter, dayOf);
    }
  }

  lemma StepBaseline(s: Session, record: Fields, since: string, filter: string, dayOf: DayOf)
    ensures Step(s, record, since, filter, dayOf).previous
         == if ReadingIn(record) == [] then s.previous else ReadingIn(record)[0]
  {
  }

  lemma {:induction false} RepeatedReading(t: Session, record: Fields, day: string, included: bool)
    requires Reading(record) == t.previous
    ensures CountTokens(t, record, day, included).samples == t.samples
  {
    assert Delta(t.previous, Reading(record)) == START;
  }

  /** Whatever the filter, a reading equal to the previous one adds no sample. */
  lemma {:induction false} RepeatAddsNothing(records: seq<Fields>, record: Fields, since: string, filter: string,
                                             dayOf: DayOf)
    requires Reading(record) == Latest(Readings(records))
    ensures Run(records + [record], since, filter, dayOf).samples == Run(records, since, filter, dayOf).samples
  {
    var s := Run(records, since, filter, dayOf);
    BaselineIsLatest(records, since, filter, dayOf);
    assert (records + [record])[..|records|] == records;
    assert Run(records + [record], since, filter, dayOf) == Step(s, record, since, filter, dayOf);
    var t := Describe(s, record);
    var day := DayIn(record, dayOf);
    RepeatedReading(t, record, day, Included(day, t.project, since, filter));
  }

  ghost predicate Carries(u: Usage, cs: seq<Counters>) {
    && u.input == Added(cs, Input) && u.cacheRead == Added(cs, Cached) && u.output == Added(cs, Output)
    && u.reasoning == Added(cs, Reasoning) && u.total == Added(cs, Total) && u.cacheWrite == 0
  }

  lemma {:induction false} CarriesOneMore(all: Session, record: Fields, day: string, cs: seq<Counters>)
    requires Carries(Sum(all.samples), cs) && all.previous == Latest(cs) && day != ""
    requires Totals(record) != map[]
    ensures Carries(Sum(CountTokens(all, record, day, true).samples), cs + [Reading(record)])
  {
    var c := Reading(record);
    var delta := Delta(all.previous, c);
    forall f: Field { AddedAppend(cs, c, f); }
    SumAppend(all.samples, Sample(day, all.project, all.kind, all.model, UsageOf(delta, Context(record))));
  }

  lemma {:induction false} CarryStep(s: Session, record: Fields, cs: seq<Counters>, dayOf: DayOf)
    requires Carries(Sum(s.samples), cs) && s.previous == Latest(cs)
    requires IsTokenCount(record) ==> DayIn(record, dayOf) != ""
    ensures Carries(Sum(Step(s, record, "", "", dayOf).samples), cs + ReadingIn(record))
  {
    var all := Describe(s, record);
    assert all.samples == s.samples && all.previous == s.previous;
    assert cs + [] == cs;
    if IsTokenCount(record) {
      var day := DayIn(record, dayOf);
      NoFilter(day, all.project);
      assert Step(s, record, "", "", dayOf) == CountTokens(all, record, day, true);
      if Totals(record) != map[] {
        CarriesOneMore(all, record, day, cs);
      }
    }
  }

  /** The reported usage of a fully dated file is the sum of its deltas, counter by counter. */
  lemma {:induction false} SamplesCarryDeltas(records: seq<Fields>, dayOf: DayOf)
    requires AllDated(records, dayOf)
    ensures Carries(Sum(Run(records, "", "", dayOf).samples), Readings(records))
  {
    if records != [] {
      var init, last := records[..|records| - 1], records[|records| - 1];
      SamplesCarryDeltas(init, dayOf);
      BaselineIsLatest(init, "", "", dayOf);
      CarryStep(Run(init, "", "", dayOf), last, Readings(init), dayOf);
    }
  }

  // ----- The total counter telescopes -----

  /** Sum of the last value before each strict decrease of the total. */
  function PeaksBeforeResets(cs: seq<Counters>): nat {
    if cs == [] then 0
    else
      var init := cs[..|cs| - 1];
      PeaksBeforeResets(init) + if cs[|cs| - 1].total < Latest(init).total then Latest(init).total else 0
  }

  lemma {:induction false} TotalTelescopes(cs: seq<Counters>)
    ensures Added(cs, Total) == PeaksBeforeResets(cs) + Latest(cs).total
  {
    if cs != [] {
      TotalTelescopes(cs[..|cs| - 1]);
    }
  }

  /** End to end: the reported total of a dated file. */
  lemma ReportedTotal(records: seq<Fields>, dayOf: DayOf)
    requires AllDated(records, dayOf)
    ensures Sum(Run(records, "", "", dayOf).samples).total
         == PeaksBeforeResets(Readings(records)) + Latest(Readings(records)).total
  {
    SamplesCarryDeltas(records, dayOf);
    TotalTelescopes(Readings(records));
  }

  // ----- The other counters, segment by segment -----

  /** The readings cut at every strict decrease of the total. */
  function Segments(cs: seq<Counters>): (segs: seq<seq<Counters>>)
    ensures cs != [] ==> segs != [] && segs[|segs| - 1] != [] && Latest(segs[|segs| - 1]) == Latest(cs)
  {
    if cs == [] then []
    else
      var init, last := cs[..|cs| - 1], cs[|cs| - 1];
      var segs := Segments(init);
      if init == [] || last.total < Latest(init).total then segs + [[last]]
      else segs[..|segs| - 1] + [segs[|segs| - 1] + [last]]
  }

  function Flatten(segs: seq<seq<Counters>>): seq<Counters> {
    if segs == [] then [] else Flatten(segs[..|segs| - 1]) + segs[|segs| - 1]
  }

  /** One counter's values along a segment. */
  function Column(seg: seq<Counters>, f: Field): seq<nat> {
    if seg == [] then [] else Column(seg[..|seg| - 1], f) + [seg[|seg| - 1].At(f)]
  }

  function Last(x: seq<nat>): nat { if x == [] then 0 else x[|x| - 1] }

  /** First value plus every later rise. */
  function Growth(x: seq<nat>): nat {
    if x == [] then 0 else Growth(x[..|x| - 1]) + Excess(Last(x), Last(x[..|x| - 1]))
  }

  /** Everything the counter lost on the way. */
  function Falls(x: seq<nat>): nat {
    if x == [] then 0 else Falls(x[..|x| - 1]) + Excess(Last(x[..|x| - 1]), Last(x))
  }

  function Peak(x: seq<nat>): nat {
    if x == [] then 0 else if Peak(x[..|x| - 1]) > Last(x) then Peak(x[..|x| - 1]) else Last(x)
  }

  function GrowthOf(segs: seq<seq<Counters>>, f: Field): nat {
    if segs == [] then 0 else GrowthOf(segs[..|segs| - 1], f) + Growth(Column(segs[|segs| - 1], f))
  }

  lemma {:induction false} GrowthOfAppend(segs: seq<seq<Counters>>, seg: seq<Counters>, f: Field)
    ensures GrowthOf(segs + [seg], f) == GrowthOf(segs, f) + Growth(Column(seg, f))
  {
    assert (segs + [seg])[..|segs|] == segs;
  }

  lemma {:induction false} FlattenAppend(segs: seq<seq<Counters>>, seg: seq<Counters>)
    ensures Flatten(segs + [seg]) == Flatten(segs) + seg
  {
    assert (segs + [seg])[..|segs|] == segs;
  }

  lemma {:induction false} ColumnGrowthAppend(seg: seq<Counters>, c: Counters, f: Field)
    ensures Growth(Column(seg + [c], f)) == Growth(Column(seg, f)) + Excess(c.At(f), Latest(seg).At(f))
  {
    assert (seg + [c])[..|seg|] == seg;
    var x := Column(seg, f);
    assert (x + [c.At(f)])[..|x|] == x;
    assert Column(seg + [c], f) == x + [c.At(f)];
    assert seg == [] ==> f.Input? || f.Cached? || f.Output? || f.Reasoning? || f.Total?;
  }

  lemma {:induction false} SegmentsAppend(cs: seq<Counters>, c: Counters)
    ensures
      var segs := Segments(cs);
      Segments(cs + [c]) ==
        if cs == [] || c.total < Latest(cs).total then segs + [[c]]
        else segs[..|segs| - 1] + [segs[|segs| - 1] + [c]]
  {
    assert (cs + [c])[..|cs|] == cs;
  }

  /** A reading that stays in the segment extends its growth by the rise. */
  lemma {:induction false} ExtendSegment(rest: seq<seq<Counters>>, tail: seq<Counters>, c: Counters, f: Field)
    ensures GrowthOf(rest + [tail + [c]], f) == GrowthOf(rest + [tail], f) + Excess(c.At(f), Latest(tail).At(f))
    ensures Flatten(rest + [tail + [c]]) == Flatten(rest + [tail]) + [c]
  {
    ColumnGrowthAppend(tail, c, f);
    GrowthOfAppend(rest, tail, f);
    GrowthOfAppend(rest, tail + [c], f);
    FlattenLonger(rest, tail, c);
  }

  lemma FlattenLonger(rest: seq<seq<Counters>>, tail: seq<Counters>, c: Counters)
    ensures Flatten(rest + [tail + [c]]) == Flatten(rest + [tail]) + [c]
  {
    FlattenAppend(rest, tail);
    FlattenAppend(rest, tail + [c]);
    Regroup(Flatten(rest), tail, [c], tail + [c]);
  }

  lemma {:induction false} OpenSegment(segs: seq<seq<Counters>>, c: Counters, f: Field)
    ensures GrowthOf(segs + [[c]], f) == GrowthOf(segs, f) + c.At(f)
    ensures Flatten(segs + [[c]]) == Flatten(segs) + [c]
  {
    ColumnGrowthAppend([], c, f);
    assert [] + [c] == [c];
    GrowthOfAppend(segs, [c], f);
    FlattenAppend(segs, [c]);
  }

  /** One more reading extends the last segment or opens a new one. */
  lemma {:induction false} SegmentStep(cs: seq<Counters>, c: Counters, f: Field)
    ensures GrowthOf(Segments(cs + [c]), f) == GrowthOf(Segments(cs), f) + Delta(Latest(cs), c).At(f)
    ensures Flatten(Segments(cs + [c])) == Flatten(Segments(cs)) + [c]
  {
    SegmentsAppend(cs, c);
    var segs := Segments(cs);
    if cs == [] || c.total < Latest(cs).total {
      OpenSegment(segs, c, f);
    } else {
      assert segs == segs[..|segs| - 1] + [segs[|segs| - 1]];
      ExtendSegment(segs[..|segs| - 1], segs[|segs| - 1], c, f);
    }
  }

  /** The segments are the readings, and the deltas of each counter add up to the growth of its segments. */
  lemma {:induction false} AddedBySegment(cs: seq<Counters>, f: Field)
    ensures Flatten(Segments(cs)) == cs
    ensures Added(cs, f) == GrowthOf(Segments(cs), f)
  {
    if cs != [] {
      var init, last := cs[..|cs| - 1], cs[|cs| - 1];
      assert cs == init + [last];
      AddedBySegment(init, f);
      SegmentStep(init, last, f);
      AddedAppend(init, last, f);
    }
  }

  lemma {:induction false} PeakAbove(x: seq<nat>, i: nat)
    requires i < |x|
    ensures x[i] <= Peak(x)
  {
    if i < |x| - 1 { PeakAbove(x[..|x| - 1], i); }
  }

  lemma {:induction false} PeakReached(x: seq<nat>)
    requires x != []
    ensures exists i :: 0 <= i < |x| && x[i] == Peak(x)
  {
    var init := x[..|x| - 1];
    if Peak(init) > Last(x) {
      PeakReached(init);
      var i :| 0 <= i < |init| && init[i] == Peak(init);
      assert x[i] == Peak(x);
    } else {
      assert x[|x| - 1] == Peak(x);
    }
  }

  lemma {:induction false} PeakIsMaximum(x: seq<nat>)
    ensures forall v :: v in x ==> v <= Peak(x)
    ensures x != [] ==> Peak(x) in x
  {
    forall i | 0 <= i < |x| ensures x[i] <= Peak(x) { PeakAbove(x, i); }
    if x != [] { PeakReached(x); }
  }

  predicate FallsAt(x: seq<nat>, i: int) { 0 < i < |x| && x[i] < x[i - 1] }

  predicate RisesAt(x: seq<nat>, i: int) { 0 < i < |x| && x[i] > x[i - 1] }

  ghost predicate NeverFalls(x: seq<nat>) {
    forall i :: !FallsAt(x, i)
  }

  ghost predicate NeverRisesAfterFall(x: seq<nat>) {
    forall i, j :: FallsAt(x, i) && RisesAt(x, j) ==> j <= i
  }

  lemma OneMore(x: seq<nat>, v: nat)
    ensures forall i :: FallsAt(x + [v], i) <==> FallsAt(x, i) || (i == |x| > 0 && v < Last(x))
    ensures forall i :: RisesAt(x + [v], i) <==> RisesAt(x, i) || (i == |x| > 0 && v > Last(x))
  {
  }

  lemma {:induction false} NeverFallsStep(x: seq<nat>, v: nat)
    ensures NeverFalls(x + [v]) <==> NeverFalls(x) && Last(x) <= v
  {
    OneMore(x, v);
    if x != [] && v < Last(x) {
      assert FallsAt(x + [v], |x|);
    }
  }

  lemma {:induction false} RiseAfterFallStep(x: seq<nat>, v: nat)
    ensures NeverRisesAfterFall(x + [v]) <==> NeverRisesAfterFall(x) && (NeverFalls(x) || v <= Last(x))
  {
    OneMore(x, v);
    if !NeverFalls(x) && v > Last(x) {
      var i :| FallsAt(x, i);
      assert FallsAt(x + [v], i) && RisesAt(x + [v], |x|);
    }
  }

  /** Growth over-counts the final value by exactly what the counter lost on the way. */
  lemma {:induction false} GrowthIsFinalPlusFalls(x: seq<nat>)
    ensures Growth(x) == Last(x) + Falls(x)
    ensures Falls(x) == 0 <==> NeverFalls(x)
    ensures NeverFalls(x) ==> Peak(x) == Last(x)
  {
    if x != [] {
      var init := x[..|x| - 1];
      GrowthIsFinalPlusFalls(init);
      NeverFallsStep(init, Last(x));
      assert x == init + [Last(x)];
    }
  }

  /** A segment adds at least its peak, and exactly its peak if and only if the counter,
      once it has fallen, never rises again. */
  lemma {:induction false} GrowthAgainstPeak(x: seq<nat>)
    ensures Growth(x) >= Peak(x)
    ensures Growth(x) == Peak(x) <==> NeverRisesAfterFall(x)
  {
    if x != [] {
      var init := x[..|x| - 1];
      GrowthAgainstPeak(init);
      GrowthIsFinalPlusFalls(init);
      RiseAfterFallStep(init, Last(x));
      assert x == init + [Last(x)];
      PeakIsMaximum(init);
    }
  }

  /** Never falling is more than the peak needs: 5 then 3 falls, in one segment, and adds exactly its peak. */
  lemma {:induction false} FallCanAddThePeak()
    ensures var cs := [Counters(5, 0, 0, 0, 10), Counters(3, 0, 0, 0, 12)];
            && Segments(cs) == [cs] && Column(cs, Input) == [5, 3] && !NeverFalls([5, 3])
            && Added(cs, Input) == Peak([5, 3]) == 5
  {
    var a, b := Counters(5, 0, 0, 0, 10), Counters(3, 0, 0, 0, 12);
    TwoReadings(a, b);
    assert FallsAt([5, 3], 1);
    assert [5, 3][..1] == [5] && [5][..0] == [];
    assert Peak([5]) == 5;
  }

  /** Two readings without a reset. */
  lemma {:induction false} TwoReadings(a: Counters, b: Counters)
    requires b.total >= a.total
    ensures Segments([a, b]) == [[a, b]] && Column([a, b], Input) == [a.input, b.input]
    ensures Added([a, b], Input) == a.input + Excess(b.input, a.input)
  {
    assert [a, b][..1] == [a] && [a][..0] == [];
    assert Segments([a]) == [[a]] && [[a]][..0] == [] && [a] + [b] == [a, b];
    assert Column([a], Input) == [a.input];
    assert Latest([a]) == a && Added([a], Input) == Delta(Latest([]), a).At(Input);
  }
}
