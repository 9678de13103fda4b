/** Codex session logs: cumulative counters turned into per-turn deltas
    (scripts/agent-token-report.py, `codex`). Rate-limit windows are not modelled. */
module CodexLog {
  import opened Json
  import opened Orders
  import opened TokenUsage

  datatype Counters = Counters(input: nat, cached: nat, output: nat, reasoning: nat, total: nat) {
    function At(f: Field): nat {
      match f
      case Input => input
      case Cached => cached
      case Output => output
      case Reasoning => reasoning
      case Total => total
    }
  }

  datatype Field = Input | Cached | Output | Reasoning | Total

  function Level(n: nat): Counters { Counters(n, n, n, n, n) }

  const START := Level(0)

  datatype Session = Session(
    project: string, kind: string, model: string, previous: Counters, samples: seq<Sample>, selected: bool)

  const NEW_SESSION := Session("unknown", "main", "unknown", START, [], false)

  function Excess(a: nat, b: nat): nat { if a > b then a - b else 0 }

  /** Growth since `previous`; a smaller total starts a new cumulative segment. */
  function Delta(previous: Counters, current: Counters): Counters {
    if current.total < previous.total then current
    else Counters(Excess(current.input, previous.input), Excess(current.cached, previous.cached),
                  Excess(current.output, previous.output), Excess(current.reasoning, previous.reasoning),
                  Excess(current.total, previous.total))
  }

  function UsageOf(delta: Counters, context: nat): Usage {
    Usage(delta.input, 0, delta.cached, delta.output, delta.reasoning, delta.total, 1,
          if context >= LARGE_CONTEXT then 1 else 0)
  }

  function Payload(record: Fields): Fields { Mapping(Get(record, "payload")) }

  predicate IsTokenCount(record: Fields) { Get(Payload(record), "type") == Str("token_count") }

  function Totals(record: Fields): Fields {
    Mapping(Get(Mapping(Get(Payload(record), "info")), "total_token_usage"))
  }

  function Reading(record: Fields): Counters {
    var t := Totals(record);
    Counters(Count(Get(t, "input_tokens")), Count(Get(t, "cached_input_tokens")), Count(Get(t, "output_tokens")),
             Count(Get(t, "reasoning_output_tokens")), Count(Get(t, "total_tokens")))
  }

  function Context(record: Fields): nat {
    Count(Get(Mapping(Get(Mapping(Get(Payload(record), "info")), "last_token_usage")), "input_tokens"))
  }

  /** `session_meta` and `turn_context` records name the session; a record may also carry a count. */
  function Describe(s: Session, record: Fields): Session {
    var payload := Payload(record);
    if Get(record, "type") == Str("session_meta") then
      var source := Get(payload, "source");
      s.(project := Label(Get(payload, "cwd")),
         kind := if source.Obj? && "subagent" in source.fields then "subagent" else "main")
    else if Get(record, "type") == Str("turn_context") then
      s.(model := Label(Get(payload, "model")))
    else s
  }

  function DayIn(record: Fields, dayOf: DayOf): string {
    dayOf(Str(Label(Get(record, "timestamp"))))
  }

  /** What a token-count record dated `day` adds to a session, given whether it is reported. */
  function CountTokens(t: Session, record: Fields, day: string, included: bool): Session {
    var u := t.(selected := t.selected || included);
    if Totals(record) == map[] then u
    else
      var delta := Delta(u.previous, Reading(record));
      u.(previous := Reading(record),
         samples := if included && delta != START
                    then u.samples + [Sample(day, u.project, u.kind, u.model, UsageOf(delta, Context(record)))]
                    else u.samples)
  }

  predicate Included(day: string, project: string, since: string, filter: string) {
    DayIncluded(day, since) && Contains(project, filter)
  }

  /** The effect of one record. */
  function Step(s: Session, record: Fields, since: string, filter: string, dayOf: DayOf): Session {
    var t := Describe(s, record);
    if !IsTokenCount(record) then t
    else
      var day := DayIn(record, dayOf);
      CountTokens(t, record, day, Included(day, t.project, since, filter))
  }

  function Run(records: seq<Fields>, since: string, filter: string, dayOf: DayOf): Session {
    if records == [] then NEW_SESSION
    else Step(Run(records[..|records| - 1], since, filter, dayOf), records[|records| - 1], since, filter, dayOf)
  }

  function AllSamples(files: seq<LogFile>, since: string, filter: string, dayOf: DayOf): seq<Sample> {
    if files == [] then []
    else AllSamples(files[..|files| - 1], since, filter, dayOf)
         + Run(files[|files| - 1].records, since, filter, dayOf).samples
  }

  function SelectedFiles(files: seq<LogFile>, since: string, filter: string, dayOf: DayOf): nat {
    if files == [] then 0
    else SelectedFiles(files[..|files| - 1], since, filter, dayOf)
         + if Run(files[|files| - 1].records, since, filter, dayOf).selected then 1 else 0
  }

  /** The loop over one file's records. */
  method ReadSession(records: seq<Fields>, since: string, filter: string, dayOf: DayOf)
    returns (samples: seq<Sample>, selected: bool)
    ensures samples == Run(records, since, filter, dayOf).samples
    ensures selected == Run(records, since, filter, dayOf).selected
    ensures SingleTurns(samples)
  {
    var project, kind, model := "unknown", "main", "unknown";
    var previous := START;
    samples, selected := [], false;
    for r := 0 to |records|
      invariant Run(records[..r], since, filter, dayOf) == Session(project, kind, model, previous, samples, selected)
    {
      var record := records[r];
      ghost var start := Session(project, kind, model, previous, samples, selected);
      RunAppend(records, r, since, filter, dayOf);
      var payload := Payload(record);
      if Get(record, "type") == Str("session_meta") {
        project := Label(Get(payload, "cwd"));
        var source := Get(payload, "source");
        kind := if source.Obj? && "subagent" in source.fields then "subagent" else "main";
      } else if Get(record, "type") == Str("turn_context") {
        model := Label(Get(payload, "model"));
      }
      ghost var described := Session(project, kind, model, previous, samples, selected);
      assert described == Describe(start, record);
      if !IsTokenCount(record) {
        continue;
      }
      var day := DayIn(record, dayOf);
      var included := Included(day, project, since, filter);
      assert Step(start, record, since, filter, dayOf) == CountTokens(described, record, day, included);
      if included {
        selected := true;
      }
      if Totals(record) == map[] {
        continue;
      }
      var current := Reading(record);
      var delta := Delta(previous, current);
      previous := current;
      if included && delta != START {
        samples := samples + [Sample(day, project, kind, model, UsageOf(delta, Context(record)))];
      }
    }
    assert records[..|records|] == records;
    RunSingleTurns(records, since, filter, dayOf);
  }

  /** The run ends with the effect of the last record. */
  lemma {:induction false} RunStep(records: seq<Fields>, since: string, filter: string, dayOf: DayOf)
    requires records != []
    ensures Run(records, since, filter, dayOf)
         == Step(Run(records[..|records| - 1], since, filter, dayOf), records[|records| - 1], since, filter, dayOf)
  {
  }

  lemma {:induction false} RunAppend(records: seq<Fields>, r: nat, since: string, filter: string, dayOf: DayOf)
    requires r < |records|
    ensures Run(records[..r + 1], since, filter, dayOf)
         == Step(Run(records[..r], since, filter, dayOf), records[r], since, filter, dayOf)
  {
    assert records[..r + 1][..r] == records[..r];
    RunStep(records[..r + 1], since, filter, dayOf);
  }

  lemma StepSingleTurns(s: Session, record: Fields, since: string, filter: string, dayOf: DayOf)
    requires SingleTurns(s.samples)
    ensures SingleTurns(Step(s, record, since, filter, dayOf).samples)
  {
  }

  lemma {:induction false} RunSingleTurns(records: seq<Fields>, since: string, filter: string, dayOf: DayOf)
    ensures SingleTurns(Run(records, since, filter, dayOf).samples)
  {
    if records != [] {
      var before := records[..|records| - 1];
      RunSingleTurns(before, since, filter, dayOf);
      RunStep(records, since, filter, dayOf);
      StepSingleTurns(Run(before, since, filter, dayOf), records[|records| - 1], since, filter, dayOf);
    }
  }

  /** The scanning loop over files. */
  method Codex(logs: seq<LogFile>, since: string, filter: string, dayOf: DayOf)
    returns (samples: seq<Sample>, files: nat)
    ensures samples == AllSamples(logs, since, filter, dayOf)
    ensures files == SelectedFiles(logs, since, filter, dayOf)
    ensures SingleTurns(samples)
  {
    samples, files := [], 0;
    for f := 0 to |logs|
      invariant samples == AllSamples(logs[..f], since, filter, dayOf)
      invariant files == SelectedFiles(logs[..f], since, filter, dayOf)
      invariant SingleTurns(samples)
    {
      var own, selected := ReadSession(logs[f].records, since, filter, dayOf);
      assert logs[..f + 1][..f] == logs[..f];
      samples := samples + own;
      if selected {
        files := files + 1;
      }
    }
    assert logs[..|logs|] == logs;
  }

  // ----- Filtering commutes with delta accounting -----

  function Keep(samples: seq<Sample>, p: Sample -> bool): seq<Sample> {
    if samples == [] then []
    else
      var last := samples[|samples| - 1];
      Keep(samples[..|samples| - 1], p) + if p(last) then [last] else []
  }

  /** The report's filter, applied to a finished sample. */
  function Reported(since: string, filter: string): Sample -> bool {
    (s: Sample) => Included(s.day, s.project, since, filter)
  }

  lemma {:induction false} KeepAppend(a: seq<Sample>, s: Sample, p: Sample -> bool)
    ensures Keep(a + [s], p) == Keep(a, p) + if p(s) then [s] else []
  {
    assert (a + [s])[..|a|] == a;
  }

  lemma {:induction false} KeepConcat(a: seq<Sample>, b: seq<Sample>, p: Sample -> bool)
    ensures Keep(a + b, p) == Keep(a, p) + Keep(b, p)
  {
    if b == [] {
      assert a + b == a;
    } else {
      var n := |b| - 1;
      assert a + b == (a + b[..n]) + [b[n]];
      KeepAppend(a + b[..n], b[n], p);
      KeepConcat(a, b[..n], p);
    }
  }

  lemma NoFilter(day: string, project: string)
    ensures Included(day, project, "", "") == (day != "")
  {
  }

  /** The same session but for the samples the filter drops and whether it is reported. */
  ghost predicate KeptFrom(some: Session, all: Session, since: string, filter: string) {
    some == all.(samples := Keep(all.samples, Reported(since, filter)), selected := some.selected)
  }

  lemma CountTokensCommutes(some: Session, all: Session, record: Fields, day: string, since: string, filter: string)
    requires KeptFrom(some, all, since, filter)
    ensures KeptFrom(CountTokens(some, record, day, Included(day, some.project, since, filter)),
                     CountTokens(all, record, day, Included(day, all.project, "", "")), since, filter)
  {
    NoFilter(day, all.project);
    var s := Sample(day, all.project, all.kind, all.model,
                    UsageOf(Delta(all.previous, Reading(record)), Context(record)));
    KeepAppend(all.samples, s, Reported(since, filter));
    if Included(day, all.project, since, filter) {
      assert Included(day, all.project, "", "");
    }
  }

  lemma DescribeCommutes(some: Session, all: Session, record: Fields, since: string, filter: string)
    requires KeptFrom(some, all, since, filter)
    ensures KeptFrom(Describe(some, record), Describe(all, record), since, filter)
  {
  }

  lemma StepCommutes(some: Session, all: Session, record: Fields, since: string, filter: string, dayOf: DayOf)
    requires KeptFrom(some, all, since, filter)
    ensures KeptFrom(Step(some, record, since, filter, dayOf), Step(all, record, "", "", dayOf), since, filter)
  {
    DescribeCommutes(some, all, record, since, filter);
    CountTokensCommutes(Describe(some, record), Describe(all, record), record, DayIn(record, dayOf), since, filter);
  }

  /** One file: filtering while reading gives the unfiltered samples, filtered afterwards;
      the delta baseline is unaffected by the filter. */
  lemma {:induction false} FilterCommutesInFile(records: seq<Fields>, since: string, filter: string, dayOf: DayOf)
    ensures KeptFrom(Run(records, since, filter, dayOf), Run(records, "", "", dayOf), since, filter)
  {
    if records != [] {
      var before, last := records[..|records| - 1], records[|records| - 1];
      FilterCommutesInFile(before, since, filter, dayOf);
      RunStep(records, since, filter, dayOf);
      RunStep(records, "", "", dayOf);
      StepCommutes(Run(before, since, filter, dayOf), Run(before, "", "", dayOf), last, since, filter, dayOf);
    }
  }

  lemma {:induction false} FilterCommutes(logs: seq<LogFile>, since: string, filter: string, dayOf: DayOf)
    ensures AllSamples(logs, since, filter, dayOf) == Keep(AllSamples(logs, "", "", dayOf), Reported(since, filter))
  {
    if logs != [] {
      var n := |logs| - 1;
      FilterCommutes(logs[..n], since, filter, dayOf);
      FilterCommutesInFile(logs[n].records, since, filter, dayOf);
      KeepConcat(AllSamples(logs[..n], "", "", dayOf), Run(logs[n].records, "", "", dayOf).samples,
                 Reported(since, filter));
    }
  }

  lemma {:induction false} SumKeep(samples: seq<Sample>, p: Sample -> bool)
    ensures Sum(Keep(samples, p)) == SumIf(samples, p)
  {
    if samples != [] {
      var n := |samples| - 1;
      SumKeep(samples[..n], p);
      if p(samples[n]) {
        SumAppend(Keep(samples[..n], p), samples[n]);
      } else {
        assert Keep(samples, p) == Keep(samples[..n], p);
      }
    }
  }

  /** Samples dated from `since` up to, but not including, `until`. */
  function ReportedBetween(since: string, until: string, filter: string): Sample -> bool {
    (s: Sample) => Included(s.day, s.project, since, filter) && StrLt(s.day, until)
  }

  lemma {:induction false} RangeCases(day: string, project: string, since: string, until: string, filter: string)
    requires !StrLt(until, since)
    ensures Included(day, project, until, filter) <==> Included(day, project, since, filter) && !StrLt(day, until)
  {
    StrTotal();
  }

  /** Totals of adjacent date ranges add up exactly: no turn is lost or counted twice at the border. */
  lemma AdjacentRangesAddUp(logs: seq<LogFile>, since: string, until: string, filter: string, dayOf: DayOf)
    requires !StrLt(until, since)
    ensures Sum(AllSamples(logs, since, filter, dayOf))
         == Sum(Keep(AllSamples(logs, "", "", dayOf), ReportedBetween(since, until, filter)))
            .Plus(Sum(AllSamples(logs, until, filter, dayOf)))
  {
    FilterCommutes(logs, since, filter, dayOf);
    FilterCommutes(logs, until, filter, dayOf);
    var whole, early, late := Reported(since, filter), ReportedBetween(since, until, filter), Reported(until, filter);
    forall s: Sample ensures (whole(s) <==> early(s) || late(s)) && !(early(s) && late(s)) {
      RangeCases(s.day, s.project, since, until, filter);
    }
    var all := AllSamples(logs, "", "", dayOf);
    SumKeep(all, whole);
    SumKeep(all, early);
    SumKeep(all, late);
    SplitSum(all, whole, early, late);
  }
}
