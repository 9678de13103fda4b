/** The whole report: both readers, each summarized (scripts/agent-token-report.py, `report`). */
module TokenReport {
  import opened Dict
  import opened TokenUsage
  import opened TokenSummary
  import Claude = ClaudeLog
  import Codex = CodexLog

  /** What is reported for one provider. */
  datatype Section = Section(
    total: Usage, byDay: seq<Row>, byProject: seq<Row>, byKind: seq<Row>, byModel: seq<Row>, files: nat)
  {
    function Table(d: Dimension): seq<Row> {
      match d
      case Day => byDay
      case Project => byProject
      case Kind => byKind
      case Model => byModel
    }
  }

  ghost predicate Summarizes(section: Section, samples: seq<Sample>) {
    && section.total == Sum(samples)
    && RowsOf(section.byDay, samples, Day) && RowsOf(section.byProject, samples, Project)
    && RowsOf(section.byKind, samples, Kind) && RowsOf(section.byModel, samples, Model)
  }

  /** Every table adds up to the total, and nothing reports more large-context turns than turns. */
  ghost predicate Sound(section: Section) {
    && section.total.largeContextTurns <= section.total.turns
    && forall d: Dimension ::
         && RowSum(section.Table(d)) == section.total && RowIndex(section.Table(d)) == section.total.Index()
         && ContextsBounded(section.Table(d))
  }

  method Summary(samples: seq<Sample>, files: nat) returns (section: Section)
    ensures Summarizes(section, samples) && section.files == files
  {
    var total, byDay, byProject, byKind, byModel := Summarize(samples);
    section := Section(total, byDay, byProject, byKind, byModel, files);
  }

  /** `report`: both sections are sound; the Claude turns are the distinct messages and their total the four counters,
      the Codex turns the samples of its files. */
  method Report(claudeLogs: seq<LogFile>, codexLogs: seq<LogFile>, since: string, project: string, dayOf: DayOf)
    returns (claude: Section, codex: Section)
    requires Claude.BelowRoot(claudeLogs)
    ensures Sound(claude) && Sound(codex)
    ensures claude.total.turns == |set r | r in Claude.Reports(claudeLogs, since, project, dayOf) :: r.id|
    ensures claude.total.AddsUp()
    ensures codex.total == Sum(Codex.AllSamples(codexLogs, since, project, dayOf))
    ensures codex.total.turns == |Codex.AllSamples(codexLogs, since, project, dayOf)|
    ensures codex.files == Codex.SelectedFiles(codexLogs, since, project, dayOf)
  {
    var messages, samples, tools, seen, files := Claude.Claude(claudeLogs, since, project, dayOf);
    claude := Summary(samples, files);
    Claude.OneSamplePerMessage(messages, Claude.Reports(claudeLogs, since, project, dayOf));
    SummaryIsSound(claude, samples);
    SumAddsUp(samples);
    var more, count := Codex.Codex(codexLogs, since, project, dayOf);
    codex := Summary(more, count);
    SummaryIsSound(codex, more);
  }

  lemma TableRows(section: Section, samples: seq<Sample>, d: Dimension)
    requires Summarizes(section, samples)
    ensures RowsOf(section.Table(d), samples, d)
  {
    match d
    case Day =>
    case Project =>
    case Kind =>
    case Model =>
  }

  lemma {:induction false} SummaryIsSound(section: Section, samples: seq<Sample>)
    requires Summarizes(section, samples) && SingleTurns(samples)
    ensures Sound(section) && section.total.turns == |samples|
  {
    TurnsAreSamples(samples);
    AllCovered(samples, s => true);
    LargeContextBounded(samples, s => true);
    forall d: Dimension
      ensures RowSum(section.Table(d)) == section.total && RowIndex(section.Table(d)) == section.total.Index()
      ensures ContextsBounded(section.Table(d))
    {
      TableRows(section, samples, d);
      GroupsConserve(section.Table(d), samples, d);
      RowsBounded(section.Table(d), samples, d);
    }
  }

  lemma {:induction false} SumAddsUp(samples: seq<Sample>)
    requires Claude.FourCounters(samples)
    ensures Sum(samples).AddsUp()
  {
    if samples != [] {
      assert samples == samples[..|samples| - 1] + [samples[|samples| - 1]];
      SumAddsUp(samples[..|samples| - 1]);
    }
  }
}
