/** Usage counters, samples and the small readers shared by both log formats
    (scripts/agent-token-report.py). */
module TokenUsage {
  import opened Json
  import opened Orders

  datatype Usage = Usage(
    input: nat, cacheWrite: nat, cacheRead: nat, output: nat,
    reasoning: nat, total: nat, turns: nat, largeContextTurns: nat)
  {
    function Plus(other: Usage): Usage {
      Usage(input + other.input, cacheWrite + other.cacheWrite, cacheRead + other.cacheRead,
            output + other.output, reasoning + other.reasoning, total + other.total,
            turns + other.turns, largeContextTurns + other.largeContextTurns)
    }

    /** The total of the four counters that Claude logs report. */
    predicate AddsUp() { total == input + cacheWrite + cacheRead + output }

    /** The relative cost index, weights 1 / 1.25 / 0.1 / 5. */
    function Index(): real {
      input as real + 1.25 * cacheWrite as real + 0.1 * cacheRead as real + 5.0 * output as real
    }
  }

  function Uniform(n: nat): Usage { Usage(n, n, n, n, n, n, n, n) }

  const ZERO := Uniform(0)

  datatype Sample = Sample(day: string, project: string, kind: string, model: string, usage: Usage)

  /** What the rest of the model needs of the calendar: a timestamp's ISO day, or "". */
  type DayOf = Json -> string

  /** A log file: its path, the components below the scanned root, and the records that are JSON objects. */
  datatype LogFile = LogFile(path: string, parts: seq<string>, records: seq<Fields>)

  const LARGE_CONTEXT: nat := 400000

  function Count(v: Json): nat { if v.Int? && v.i >= 0 then v.i else 0 }

  function Label(v: Json): string { if v.Str? && v.s != "" then v.s else "unknown" }

  /** Substring test, Python's `needle in text`. */
  predicate Contains(text: string, needle: string) {
    needle <= text || (text != "" && Contains(text[1..], needle))
  }

  /** `bool(day and day >= since)`. */
  predicate DayIncluded(day: string, since: string) { day != "" && !StrLt(day, since) }

  function Sum(samples: seq<Sample>): Usage {
    if samples == [] then ZERO
    else Sum(samples[..|samples| - 1]).Plus(samples[|samples| - 1].usage)
  }

  /** Samples of one turn each, as both readers make them. */
  ghost predicate SingleTurns(samples: seq<Sample>) {
    forall s :: s in samples ==> s.usage.turns == 1 && s.usage.largeContextTurns <= 1
  }

  lemma SumAppend(samples: seq<Sample>, s: Sample)
    ensures Sum(samples + [s]) == Sum(samples).Plus(s.usage)
  {
    assert (samples + [s])[..|samples|] == samples;
  }

  /** Sum over the samples that satisfy `p`. */
  function SumIf(samples: seq<Sample>, p: Sample -> bool): Usage {
    if samples == [] then ZERO
    else
      var last := samples[|samples| - 1];
      SumIf(samples[..|samples| - 1], p).Plus(if p(last) then last.usage else ZERO)
  }

  lemma {:induction false} SumIfAppend(samples: seq<Sample>, s: Sample, p: Sample -> bool)
    ensures SumIf(samples + [s], p) == SumIf(samples, p).Plus(if p(s) then s.usage else ZERO)
  {
    assert (samples + [s])[..|samples|] == samples;
  }

  lemma PlusCases(all: Usage, early: Usage, late: Usage, u: Usage, isEarly: bool, isLate: bool)
    requires all == early.Plus(late) && !(isEarly && isLate)
    ensures all.Plus(if isEarly || isLate then u else ZERO)
         == early.Plus(if isEarly then u else ZERO).Plus(late.Plus(if isLate then u else ZERO))
  {
  }

  /** Splitting a condition in two splits the sum in two. */
  lemma {:induction false} SplitSum(samples: seq<Sample>, whole: Sample -> bool, early: Sample -> bool,
                                    late: Sample -> bool)
    requires forall s :: whole(s) <==> early(s) || late(s)
    requires forall s :: !(early(s) && late(s))
    ensures SumIf(samples, whole) == SumIf(samples, early).Plus(SumIf(samples, late))
  {
    if samples != [] {
      var init, last := samples[..|samples| - 1], samples[|samples| - 1];
      SplitSum(init, whole, early, late);
      PlusCases(SumIf(init, whole), SumIf(init, early), SumIf(init, late), last.usage, early(last), late(last));
    }
  }

  /** One added sample is worth its weighted index: the index of a sum is the sum of the indices. */
  lemma IndexAdditive(a: Usage, b: Usage)
    ensures a.Plus(b).Index() == a.Index() + b.Index()
  {
  }
}
