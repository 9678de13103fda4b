/** Claude session logs: usage per message id and tool-result volume
    (scripts/agent-token-report.py, `claude`). */
module ClaudeLog {
  import opened Json
  import opened Dict
  import opened Orders
  import opened TokenUsage

  datatype Numbers = Numbers(input: nat, write: nat, read: nat, output: nat) {
    function Max(other: Numbers): Numbers {
      Numbers(Larger(input, other.input), Larger(write, other.write), Larger(read, other.read),
              Larger(output, other.output))
    }

    ghost predicate AtMost(other: Numbers) {
      input <= other.input && write <= other.write && read <= other.read && output <= other.output
    }

    /** One message is one turn; output does not count towards the context. */
    function Usage(): Usage {
      TokenUsage.Usage.Usage(input, write, read, output, 0, input + write + read + output, 1,
                             if input + write + read >= LARGE_CONTEXT then 1 else 0)
    }
  }

  function Larger(a: nat, b: nat): nat { if a > b then a else b }

  /** An included assistant record that carries usage for a message. */
  datatype Report = Report(id: string, numbers: Numbers, day: string, project: string, kind: string, model: string)

  /** A tool result in an included user record; `owner` is the record's uuid, or the file path without one. */
  datatype Result = Result(owner: string, toolId: string, index: nat, name: string, chars: nat) {
    function Key(): Key { (owner, toolId, index) }
  }

  type Key = (string, string, nat)

  /** Where and how the records of one file are read. */
  datatype Scan = Scan(path: string, project: string, kind: string, since: string, dayOf: DayOf)

  function ScanOf(file: LogFile, since: string, dayOf: DayOf): Scan
    requires file.parts != []
  {
    Scan(file.path, file.parts[0], if "subagents" in file.parts then "subagent" else "main", since, dayOf)
  }

  function Message(record: Fields): Fields { Mapping(Get(record, "message")) }

  function Day(record: Fields, scan: Scan): string { (scan.dayOf)(Get(record, "timestamp")) }

  function ReportOf(record: Fields, scan: Scan): seq<Report> {
    var usage := Mapping(Get(Message(record), "usage"));
    var id := Get(Message(record), "id");
    if Get(record, "type") == Str("assistant") && DayIncluded(Day(record, scan), scan.since)
       && usage != map[] && id.Str? && id.s != ""
    then
      [Report(id.s, Numbers(Count(Get(usage, "input_tokens")), Count(Get(usage, "cache_creation_input_tokens")),
                            Count(Get(usage, "cache_read_input_tokens")), Count(Get(usage, "output_tokens"))),
              Day(record, scan), scan.project, scan.kind, Label(Get(Message(record), "model")))]
    else []
  }

  predicate IsPart(part: Json, kind: string) { part.Obj? && Get(part.fields, "type") == Str(kind) }

  /** `tool_use` parts of one assistant message name the tool calls of the file. */
  function NamesAfter(parts: seq<Json>, names: map<string, string>): map<string, string> {
    if parts == [] then names
    else
      var before := NamesAfter(parts[..|parts| - 1], names);
      var part := parts[|parts| - 1];
      if IsPart(part, "tool_use") then before[Label(Get(part.fields, "id")) := Label(Get(part.fields, "name"))]
      else before
  }

  function Names(records: seq<Fields>): map<string, string> {
    if records == [] then map[]
    else
      var before := Names(records[..|records| - 1]);
      var record := records[|records| - 1];
      if Get(record, "type") == Str("assistant") then NamesAfter(Items(Get(Message(record), "content")), before)
      else before
  }

  function ContentChars(content: Json): nat {
    match content
    case Str(s) => |s|
    case List(items) => TextChars(items)
    case _ => 0
  }

  function TextChars(parts: seq<Json>): nat {
    if parts == [] then 0
    else
      TextChars(parts[..|parts| - 1])
      + var part := parts[|parts| - 1];
        if part.Obj? && Get(part.fields, "text").Str? then |Get(part.fields, "text").s| else 0
  }

  function Owner(record: Fields, path: string): string {
    var uuid := Get(record, "uuid");
    if Falsy(uuid) then path else Label(uuid)
  }

  /** Python truth of a JSON value. */
  predicate Falsy(v: Json) {
    match v
    case Null => true
    case Bool(b) => !b
    case Int(i) => i == 0
    case Float(r) => r == 0.0
    case Str(s) => s == ""
    case List(items) => items == []
    case Obj(fields) => fields == map[]
  }

  /** Results among the first parts of a record's content. */
  function ResultsIn(parts: seq<Json>, owner: string, names: map<string, string>): seq<Result> {
    if parts == [] then []
    else
      var n := |parts| - 1;
      ResultsIn(parts[..n], owner, names) + PartResult(parts[n], n, owner, names)
  }

  function PartResult(part: Json, index: nat, owner: string, names: map<string, string>): (found: seq<Result>)
    ensures |found| <= 1
  {
    if IsPart(part, "tool_result") then
      var id := Label(Get(part.fields, "tool_use_id"));
      [Result(owner, id, index, if id in names then names[id] else "unknown",
              ContentChars(Get(part.fields, "content")))]
    else []
  }

  function ResultsOf(record: Fields, names: map<string, string>, scan: Scan): seq<Result> {
    if Get(record, "type") == Str("user") && DayIncluded(Day(record, scan), scan.since)
    then ResultsIn(Items(Get(Message(record), "content")), Owner(record, scan.path), names)
    else []
  }

  function FileReports(records: seq<Fields>, scan: Scan): seq<Report> {
    if records == [] then []
    else FileReports(records[..|records| - 1], scan) + ReportOf(records[|records| - 1], scan)
  }

  function FileResults(records: seq<Fields>, scan: Scan): seq<Result> {
    if records == [] then []
    else
      FileResults(records[..|records| - 1], scan)
      + ResultsOf(records[|records| - 1], Names(records[..|records| - 1]), scan)
  }

  ghost predicate BelowRoot(logs: seq<LogFile>) { forall f :: f in logs ==> f.parts != [] }

  function Reports(logs: seq<LogFile>, since: string, filter: string, dayOf: DayOf): seq<Report>
    requires BelowRoot(logs)
  {
    if logs == [] then []
    else
      var file := logs[|logs| - 1];
      Reports(logs[..|logs| - 1], since, filter, dayOf)
      + if Contains(file.parts[0], filter) then FileReports(file.records, ScanOf(file, since, dayOf)) else []
  }

  function Results(logs: seq<LogFile>, since: string, filter: string, dayOf: DayOf): seq<Result>
    requires BelowRoot(logs)
  {
    if logs == [] then []
    else
      var file := logs[|logs| - 1];
      Results(logs[..|logs| - 1], since, filter, dayOf)
      + if Contains(file.parts[0], filter) then FileResults(file.records, ScanOf(file, since, dayOf)) else []
  }

  // ----- What the dictionaries must hold -----

  /** Message ids in order of first report. */
  function Ids(reports: seq<Report>): seq<string> {
    if reports == [] then []
    else
      var before, last := Ids(reports[..|reports| - 1]), reports[|reports| - 1];
      if last.id in before then before else before + [last.id]
  }

  function First(reports: seq<Report>, id: string): Report
    requires Reported(reports, id)
  {
    if reports[0].id == id then reports[0] else First(reports[1..], id)
  }

  /** Componentwise maximum of everything reported for a message. */
  function Best(reports: seq<Report>, id: string): Numbers {
    if reports == [] then Numbers(0, 0, 0, 0)
    else
      var before, last := Best(reports[..|reports| - 1], id), reports[|reports| - 1];
      if last.id == id then before.Max(last.numbers) else before
  }

  ghost predicate Holds(messages: Dict<Sample>, reports: seq<Report>) {
    && messages.Valid()
    && messages.keys == Ids(reports)
    && forall id :: id in messages.vals ==> Reported(reports, id) && messages.vals[id] == Summary(reports, id)
  }

  ghost predicate Reported(reports: seq<Report>, id: string) { exists r :: r in reports && r.id == id }

  /** The first report's labels with the largest counters. */
  ghost function Summary(reports: seq<Report>, id: string): Sample
    requires Reported(reports, id)
  {
    var first := First(reports, id);
    Sample(first.day, first.project, first.kind, first.model, Best(reports, id).Usage())
  }

  lemma {:induction false} IdsAreReported(reports: seq<Report>)
    ensures forall id :: id in Ids(reports) <==> Reported(reports, id)
    ensures Distinct(Ids(reports))
  {
    if reports != [] {
      var init, last := reports[..|reports| - 1], reports[|reports| - 1];
      IdsAreReported(init);
      forall id ensures id in Ids(reports) <==> Reported(reports, id) {
        assert reports == init + [last];
        if id == last.id { assert last in reports; }
        if Reported(init, id) { var r :| r in init && r.id == id; assert r in reports; }
      }
    }
  }

  lemma {:induction false} UnreportedIsZero(reports: seq<Report>, id: string)
    requires !Reported(reports, id)
    ensures Best(reports, id) == Numbers(0, 0, 0, 0)
  {
    if reports != [] {
      var init, last := reports[..|reports| - 1], reports[|reports| - 1];
      assert last in reports;
      forall r | r in init ensures r.id != id { assert r in reports; }
      UnreportedIsZero(init, id);
    }
  }

  lemma {:induction false} FirstStays(reports: seq<Report>, r: Report, id: string)
    ensures Reported(reports, id) ==> Reported(reports + [r], id) && First(reports + [r], id) == First(reports, id)
    ensures !Reported(reports, id) && r.id == id ==> Reported(reports + [r], id) && First(reports + [r], id) == r
  {
    var more := reports + [r];
    assert r in more;
    if reports != [] {
      assert more[0] == reports[0] && more[1..] == reports[1..] + [r];
      if reports[0].id != id {
        FirstStays(reports[1..], r, id);
        if Reported(reports, id) {
          var q :| q in reports && q.id == id;
          assert q in reports[1..] && q in more;
        }
        if Reported(reports[1..], id) {
          var q :| q in reports[1..] && q.id == id;
          assert q in reports;
        }
      }
    }
  }

  /** What the loop does with one report. */
  function Note(messages: Dict<Sample>, r: Report): Dict<Sample>
    requires messages.Valid()
  {
    if messages.Has(r.id) then
      var previous := messages.vals[r.id];
      var u := previous.usage;
      messages.Put(r.id,
                   previous.(usage := r.numbers.Max(Numbers(u.input, u.cacheWrite, u.cacheRead, u.output)).Usage()))
    else
      messages.Put(r.id, Sample(r.day, r.project, r.kind, r.model, r.numbers.Usage()))
  }

  lemma {:induction false} NoteKeys(messages: Dict<Sample>, reports: seq<Report>, r: Report)
    requires Holds(messages, reports)
    ensures Note(messages, r).Valid() && Note(messages, r).keys == Ids(reports + [r])
    ensures forall id :: id in Note(messages, r).vals <==> id in messages.vals || id == r.id
    ensures forall id :: id in messages.vals ==> Reported(reports, id)
    ensures r.id !in messages.vals ==> !Reported(reports, r.id)
  {
    assert (reports + [r])[..|reports|] == reports;
    IdsAreReported(reports);
    assert r.id in messages.vals <==> r.id in messages.keys;
  }

  lemma {:induction false} NoteKeeps(messages: Dict<Sample>, reports: seq<Report>, r: Report)
    requires Holds(messages, reports)
    ensures Holds(Note(messages, r), reports + [r])
  {
    NoteKeys(messages, reports, r);
    forall id | id in Note(messages, r).vals
      ensures Reported(reports + [r], id) && Note(messages, r).vals[id] == Summary(reports + [r], id)
    {
      NoteValue(messages, reports, r, id);
    }
  }

  lemma BestMore(reports: seq<Report>, r: Report, id: string)
    ensures Best(reports + [r], id) == if r.id == id then Best(reports, id).Max(r.numbers) else Best(reports, id)
  {
    assert (reports + [r])[..|reports|] == reports;
  }

  lemma {:induction false} NoteValue(messages: Dict<Sample>, reports: seq<Report>, r: Report, id: string)
    requires Holds(messages, reports) && (id in messages.vals || id == r.id)
    requires id in messages.vals ==> Reported(reports, id)
    requires r.id !in messages.vals ==> !Reported(reports, r.id)
    ensures Reported(reports + [r], id) && Note(messages, r).vals[id] == Summary(reports + [r], id)
  {
    FirstStays(reports, r, id);
    BestMore(reports, r, id);
    if id !in messages.vals { UnreportedIsZero(reports, id); }
  }

  // ----- Tool results -----

  /** The results that count: the first with each key. */
  function Fresh(results: seq<Result>): seq<Result> {
    if results == [] then []
    else
      var init, last := results[..|results| - 1], results[|results| - 1];
      if last.Key() in Keys(init) then Fresh(init) else Fresh(init) + [last]
  }

  function Keys(results: seq<Result>): set<Key> { set r | r in results :: r.Key() }

  datatype Tally = Tally(calls: nat, chars: nat)

  function TallyOf(kept: seq<Result>, name: string): Tally {
    if kept == [] then Tally(0, 0)
    else
      var before, last := TallyOf(kept[..|kept| - 1], name), kept[|kept| - 1];
      if last.name == name then Tally(before.calls + 1, before.chars + last.chars) else before
  }

  function ToolNames(kept: seq<Result>): seq<string> {
    if kept == [] then []
    else
      var before, last := ToolNames(kept[..|kept| - 1]), kept[|kept| - 1];
      if last.name in before then before else before + [last.name]
  }

  ghost predicate Counted(tools: Dict<Tally>, seen: set<Key>, results: seq<Result>) {
    && seen == Keys(results)
    && tools.Valid()
    && tools.keys == ToolNames(Fresh(results))
    && forall name :: name in tools.vals ==> tools.vals[name] == TallyOf(Fresh(results), name)
  }

  /** What the loop does with a result whose key is new. */
  function Credit(tools: Dict<Tally>, r: Result): Dict<Tally>
    requires tools.Valid()
  {
    var before := if tools.Has(r.name) then tools.vals[r.name] else Tally(0, 0);
    tools.Put(r.name, Tally(before.calls + 1, before.chars + r.chars))
  }

  lemma {:induction false} UnnamedIsZero(kept: seq<Result>, name: string)
    requires name !in ToolNames(kept)
    ensures TallyOf(kept, name) == Tally(0, 0)
  {
    if kept != [] {
      UnnamedIsZero(kept[..|kept| - 1], name);
    }
  }

  lemma KeysAppend(results: seq<Result>, r: Result)
    ensures Keys(results + [r]) == Keys(results) + {r.Key()}
  {
    assert forall q :: q in results + [r] <==> q in results || q == r;
  }

  lemma {:induction false} CreditKeeps(tools: Dict<Tally>, seen: set<Key>, results: seq<Result>, r: Result)
    requires Counted(tools, seen, results)
    ensures r.Key() in seen ==> Counted(tools, seen, results + [r])
    ensures r.Key() !in seen ==> Counted(Credit(tools, r), seen + {r.Key()}, results + [r])
  {
    KeysAppend(results, r);
    assert (results + [r])[..|results|] == results;
    if r.Key() !in seen {
      var kept := Fresh(results);
      assert Fresh(results + [r]) == kept + [r];
      assert (kept + [r])[..|kept|] == kept;
      assert r.name in tools.vals <==> r.name in tools.keys;
      if r.name !in tools.vals {
        UnnamedIsZero(kept, r.name);
      }
    }
  }

  lemma {:induction false} ResultsInAppend(before: seq<Result>, parts: seq<Json>, n: nat, owner: string,
                                           names: map<string, string>)
    requires n < |parts|
    ensures before + ResultsIn(parts[..n + 1], owner, names)
         == before + ResultsIn(parts[..n], owner, names) + PartResult(parts[n], n, owner, names)
  {
    var now := parts[..n + 1];
    assert now[..n] == parts[..n];
    ResultsInStep(now, owner, names);
    Regroup(before, ResultsIn(parts[..n], owner, names), PartResult(parts[n], n, owner, names),
            ResultsIn(now, owner, names));
  }

  lemma {:induction false} ResultsInStep(parts: seq<Json>, owner: string, names: map<string, string>)
    requires parts != []
    ensures var n := |parts| - 1;
            ResultsIn(parts, owner, names)
                == ResultsIn(parts[..n], owner, names) + PartResult(parts[n], n, owner, names)
  {
  }

  /** The loop over one user record's content. */
  method ReadResults(parts: seq<Json>, owner: string, names: map<string, string>,
                     tools0: Dict<Tally>, seen0: set<Key>, ghost before: seq<Result>)
    returns (tools: Dict<Tally>, seen: set<Key>)
    requires Counted(tools0, seen0, before)
    ensures Counted(tools, seen, before + ResultsIn(parts, owner, names))
  {
    tools, seen := tools0, seen0;
    ghost var done := before;
    assert before + [] == before;
    for index := 0 to |parts|
      invariant done == before + ResultsIn(parts[..index], owner, names)
      invariant Counted(tools, seen, done)
    {
      var found := PartResult(parts[index], index, owner, names);
      ResultsInAppend(before, parts, index, owner, names);
      assert done + [] == done;
      if found == [] {
        continue;
      }
      var r := found[0];
      assert found == [r];
      CreditKeeps(tools, seen, done, r);
      done := done + [r];
      if r.Key() in seen {
        continue;
      }
      seen, tools := seen + {r.Key()}, Credit(tools, r);
    }
    assert parts[..|parts|] == parts;
  }

  /** The loop that collects tool names from one assistant message. */
  method ReadNames(parts: seq<Json>, names0: map<string, string>) returns (names: map<string, string>)
    ensures names == NamesAfter(parts, names0)
  {
    names := names0;
    for i := 0 to |parts|
      invariant names == NamesAfter(parts[..i], names0)
    {
      assert parts[..i + 1][..i] == parts[..i];
      if IsPart(parts[i], "tool_use") {
        names := names[Label(Get(parts[i].fields, "id")) := Label(Get(parts[i].fields, "name"))];
      }
    }
    assert parts[..|parts|] == parts;
  }

  /** One assistant record: keep the larger of the old and new counters for its message. */
  method ReadReport(record: Fields, scan: Scan, messages0: Dict<Sample>, ghost before: seq<Report>)
    returns (messages: Dict<Sample>)
    requires Holds(messages0, before) && Get(record, "type") == Str("assistant")
    ensures Holds(messages, before + ReportOf(record, scan))
  {
    messages := messages0;
    assert before + [] == before;
    var day := Day(record, scan);
    var usage := Mapping(Get(Message(record), "usage"));
    var mid := Get(Message(record), "id");
    if !DayIncluded(day, scan.since) || usage == map[] || !mid.Str? || mid.s == "" {
      return;
    }
    var numbers := Numbers(Count(Get(usage, "input_tokens")), Count(Get(usage, "cache_creation_input_tokens")),
                           Count(Get(usage, "cache_read_input_tokens")), Count(Get(usage, "output_tokens")));
    var model := Label(Get(Message(record), "model"));
    NoteKeeps(messages, before, Report(mid.s, numbers, day, scan.project, scan.kind, model));
    if messages.Has(mid.s) {
      var previous := messages.vals[mid.s];
      var u := previous.usage;
      numbers := numbers.Max(Numbers(u.input, u.cacheWrite, u.cacheRead, u.output));
      messages := messages.Put(mid.s, previous.(usage := numbers.Usage()));
    } else {
      messages := messages.Put(mid.s, Sample(day, scan.project, scan.kind, model, numbers.Usage()));
    }
  }

  lemma {:induction false} FileStep(records: seq<Fields>, scan: Scan)
    requires records != []
    ensures var before, last := records[..|records| - 1], records[|records| - 1];
            && FileReports(records, scan) == FileReports(before, scan) + ReportOf(last, scan)
            && FileResults(records, scan) == FileResults(before, scan) + ResultsOf(last, Names(before), scan)
  {
  }

  lemma {:induction false} FileAppend(reports: seq<Report>, results: seq<Result>, records: seq<Fields>, i: nat,
                                      scan: Scan)
    requires i < |records|
    ensures reports + FileReports(records[..i + 1], scan)
         == reports + FileReports(records[..i], scan) + ReportOf(records[i], scan)
    ensures results + FileResults(records[..i + 1], scan)
         == results + FileResults(records[..i], scan) + ResultsOf(records[i], Names(records[..i]), scan)
  {
    var now, before, names := records[..i + 1], records[..i], Names(records[..i]);
    assert now[..i] == before;
    FileStep(now, scan);
    Regroup(reports, FileReports(before, scan), ReportOf(records[i], scan), FileReports(now, scan));
    Regroup(results, FileResults(before, scan), ResultsOf(records[i], names, scan), FileResults(now, scan));
  }

  lemma {:induction false} NamesAppend(records: seq<Fields>, i: nat)
    requires i < |records|
    ensures Names(records[..i + 1])
         == if Get(records[i], "type") == Str("assistant")
            then NamesAfter(Items(Get(Message(records[i]), "content")), Names(records[..i])) else Names(records[..i])
  {
    assert records[..i + 1][..i] == records[..i];
  }

  /** One record of the loop. */
  method ReadRecord(record: Fields, scan: Scan, names0: map<string, string>, messages0: Dict<Sample>,
                    tools0: Dict<Tally>, seen0: set<Key>, ghost reports: seq<Report>, ghost results: seq<Result>)
    returns (names: map<string, string>, messages: Dict<Sample>, tools: Dict<Tally>, seen: set<Key>)
    requires Holds(messages0, reports) && Counted(tools0, seen0, results)
    ensures Holds(messages, reports + ReportOf(record, scan))
    ensures Counted(tools, seen, results + ResultsOf(record, names0, scan))
    ensures names == if Get(record, "type") == Str("assistant")
                     then NamesAfter(Items(Get(Message(record), "content")), names0) else names0
  {
    names, messages, tools, seen := names0, messages0, tools0, seen0;
    assert reports + [] == reports && results + [] == results;
    if Get(record, "type") == Str("assistant") {
      messages := ReadReport(record, scan, messages, reports);
      names := ReadNames(Items(Get(Message(record), "content")), names);
    } else if Get(record, "type") == Str("user") && DayIncluded(Day(record, scan), scan.since) {
      var owner := Owner(record, scan.path);
      tools, seen := ReadResults(Items(Get(Message(record), "content")), owner, names, tools, seen, results);
    }
  }

  /** The loop over one file's records. */
  method ReadFile(records: seq<Fields>, scan: Scan, messages0: Dict<Sample>, tools0: Dict<Tally>, seen0: set<Key>,
                  ghost reports: seq<Report>, ghost results: seq<Result>)
    returns (messages: Dict<Sample>, tools: Dict<Tally>, seen: set<Key>)
    requires Holds(messages0, reports) && Counted(tools0, seen0, results)
    ensures Holds(messages, reports + FileReports(records, scan))
    ensures Counted(tools, seen, results + FileResults(records, scan))
  {
    messages, tools, seen := messages0, tools0, seen0;
    var names: map<string, string> := map[];
    ghost var reported, resulted := reports, results;
    assert reports + [] == reports && results + [] == results;
    for i := 0 to |records|
      invariant names == Names(records[..i])
      invariant reported == reports + FileReports(records[..i], scan)
      invariant resulted == results + FileResults(records[..i], scan)
      invariant Holds(messages, reported) && Counted(tools, seen, resulted)
    {
      FileAppend(reports, results, records, i, scan);
      NamesAppend(records, i);
      ghost var before := names;
      names, messages, tools, seen := ReadRecord(records[i], scan, names, messages, tools, seen, reported, resulted);
      reported := reported + ReportOf(records[i], scan);
      resulted := resulted + ResultsOf(records[i], before, scan);
    }
    assert records[..|records|] == records;
  }

  function Values<V>(d: Dict<V>): (vs: seq<V>)
    requires d.Valid()
    ensures |vs| == |d.keys| && forall i :: 0 <= i < |vs| ==> d.keys[i] in d.vals && vs[i] == d.vals[d.keys[i]]
  {
    assert forall i :: 0 <= i < |d.keys| ==> d.keys[i] in d.vals by {
      forall i | 0 <= i < |d.keys| ensures d.keys[i] in d.vals { assert d.keys[i] in d.keys; }
    }
    seq(|d.keys|, i requires 0 <= i < |d.keys| => d.vals[d.keys[i]])
  }

  /** The scanning loop over files. */
  method Claude(logs: seq<LogFile>, since: string, filter: string, dayOf: DayOf)
    returns (messages: Dict<Sample>, samples: seq<Sample>, tools: Dict<Tally>, seen: set<Key>, files: nat)
    requires BelowRoot(logs)
    ensures Holds(messages, Reports(logs, since, filter, dayOf)) && samples == Values(messages)
    ensures Counted(tools, seen, Results(logs, since, filter, dayOf))
    ensures files == |Selected(logs, filter)|
  {
    messages, tools, seen, files := Empty(), Empty(), {}, 0;
    for f := 0 to |logs|
      invariant Holds(messages, Reports(logs[..f], since, filter, dayOf))
      invariant Counted(tools, seen, Results(logs[..f], since, filter, dayOf))
      invariant files == |Selected(logs[..f], filter)|
    {
      var file := logs[f];
      assert logs[..f + 1][..f] == logs[..f];
      ghost var reports, results := Reports(logs[..f], since, filter, dayOf), Results(logs[..f], since, filter, dayOf);
      assert reports + [] == reports && results + [] == results;
      if Contains(file.parts[0], filter) {
        files := files + 1;
        var scan := ScanOf(file, since, dayOf);
        messages, tools, seen := ReadFile(file.records, scan, messages, tools, seen, reports, results);
      }
    }
    assert logs[..|logs|] == logs;
    samples := Values(messages);
  }

  function Selected(logs: seq<LogFile>, filter: string): seq<LogFile>
    requires BelowRoot(logs)
  {
    if logs == [] then []
    else
      var last := logs[|logs| - 1];
      Selected(logs[..|logs| - 1], filter) + if Contains(last.parts[0], filter) then [last] else []
  }

  // ----- What a reader gets out of it -----

  ghost predicate Bounded(reports: seq<Report>, id: string, n: Numbers) {
    forall r :: r in reports && r.id == id ==> r.numbers.AtMost(n)
  }

  lemma {:induction false} BestBounds(reports: seq<Report>, id: string)
    ensures Bounded(reports, id, Best(reports, id))
  {
    if reports != [] {
      var init, last := reports[..|reports| - 1], reports[|reports| - 1];
      BestBounds(init, id);
      assert reports == init + [last];
      BestMore(init, last, id);
    }
  }

  lemma AttainedMore(init: seq<Report>, last: Report, id: string)
    requires Attained(init, id, Best(init, id))
    ensures Attained(init + [last], id, Best(init + [last], id))
  {
    BestMore(init, last, id);
    assert last in init + [last] && forall r :: r in init ==> r in init + [last];
  }

  lemma {:induction false} BestAttained(reports: seq<Report>, id: string)
    requires Reported(reports, id)
    ensures Attained(reports, id, Best(reports, id))
  {
    var init, last := reports[..|reports| - 1], reports[|reports| - 1];
    assert reports == init + [last];
    if Reported(init, id) {
      BestAttained(init, id);
      AttainedMore(init, last, id);
    } else {
      assert last.id == id && last in reports;
      UnreportedIsZero(init, id);
      BestMore(init, last, id);
      assert Best(reports, id) == last.numbers;
    }
  }

  /** The final counters of a message bound every record reported for it, and each is one of them. */
  lemma {:induction false} BestIsMaximum(reports: seq<Report>, id: string)
    ensures forall r :: r in reports && r.id == id ==> r.numbers.AtMost(Best(reports, id))
    ensures Reported(reports, id) ==> Attained(reports, id, Best(reports, id))
  {
    BestBounds(reports, id);
    if Reported(reports, id) { BestAttained(reports, id); }
  }

  ghost predicate Attained(reports: seq<Report>, id: string, n: Numbers) {
    && (exists r :: r in reports && r.id == id && r.numbers.input == n.input)
    && (exists r :: r in reports && r.id == id && r.numbers.write == n.write)
    && (exists r :: r in reports && r.id == id && r.numbers.read == n.read)
    && (exists r :: r in reports && r.id == id && r.numbers.output == n.output)
  }

  /** Two logs report the same when every id-and-counters pair of one occurs in the other,
      in whatever order and however often. */
  ghost predicate SameReports(a: seq<Report>, b: seq<Report>) {
    && (forall r :: r in a ==> exists q :: q in b && q.id == r.id && q.numbers == r.numbers)
    && (forall r :: r in b ==> exists q :: q in a && q.id == r.id && q.numbers == r.numbers)
  }

  lemma {:induction false} BestGrows(a: seq<Report>, b: seq<Report>, id: string)
    requires forall r :: r in a ==> exists q :: q in b && q.id == r.id && q.numbers == r.numbers
    ensures Best(a, id).AtMost(Best(b, id))
  {
    BestIsMaximum(a, id);
    BestIsMaximum(b, id);
    if Reported(a, id) {
      assert Attained(a, id, Best(a, id));
    } else {
      UnreportedIsZero(a, id);
    }
  }

  lemma {:induction false} SameReportsSameBest(a: seq<Report>, b: seq<Report>, id: string)
    requires SameReports(a, b)
    ensures Best(a, id) == Best(b, id)
    ensures id in Ids(a) <==> id in Ids(b)
  {
    BestGrows(a, b, id);
    BestGrows(b, a, id);
    IdsAreReported(a);
    IdsAreReported(b);
  }

  /** The record stands in some selected file. */
  ghost predicate Recorded(logs: seq<LogFile>, filter: string, record: Fields)
    requires BelowRoot(logs)
  {
    exists f :: f in logs && Contains(f.parts[0], filter) && record in f.records
  }

  /** Two sets of logs hold the same records: in whatever files and order, and however often. */
  ghost predicate SameRecords(logs: seq<LogFile>, others: seq<LogFile>, filter: string)
    requires BelowRoot(logs) && BelowRoot(others)
  {
    forall record :: Recorded(logs, filter, record) <==> Recorded(others, filter, record)
  }

  lemma {:induction false} FileReportsFrom(records: seq<Fields>, scan: Scan, r: Report)
    ensures r in FileReports(records, scan) <==> exists record :: record in records && r in ReportOf(record, scan)
  {
    if records != [] {
      var init, last := records[..|records| - 1], records[|records| - 1];
      FileReportsFrom(init, scan, r);
      assert records == init + [last];
    }
  }

  /** The report comes from a record of a selected file. */
  ghost predicate FromLogs(logs: seq<LogFile>, since: string, filter: string, dayOf: DayOf, r: Report)
    requires BelowRoot(logs)
  {
    exists f :: f in logs && Contains(f.parts[0], filter) && r in FileReports(f.records, ScanOf(f, since, dayOf))
  }

  lemma {:induction false} ReportsFrom(logs: seq<LogFile>, since: string, filter: string, dayOf: DayOf, r: Report)
    requires BelowRoot(logs)
    ensures r in Reports(logs, since, filter, dayOf) <==> FromLogs(logs, since, filter, dayOf, r)
  {
    if logs != [] {
      var init, last := logs[..|logs| - 1], logs[|logs| - 1];
      assert logs == init + [last] && last in logs;
      ReportsFrom(init, since, filter, dayOf, r);
      if FromLogs(logs, since, filter, dayOf, r) && !FromLogs(init, since, filter, dayOf, r) {
        var f :| f in logs && Contains(f.parts[0], filter) && r in FileReports(f.records, ScanOf(f, since, dayOf));
        assert f == last;
      }
    }
  }

  /** Id and counters of a report depend on the record alone, not on the file it stands in. */
  lemma {:induction false} ReportElsewhere(record: Fields, scan: Scan, other: Scan, r: Report)
    requires r in ReportOf(record, scan) && scan.since == other.since && scan.dayOf == other.dayOf
    ensures |ReportOf(record, other)| == 1
    ensures ReportOf(record, other)[0].id == r.id && ReportOf(record, other)[0].numbers == r.numbers
  {
  }

  /** A report comes from a record that stands in a selected file. */
  lemma {:induction false} ReportSource(logs: seq<LogFile>, since: string, filter: string, dayOf: DayOf, r: Report)
    returns (record: Fields, scan: Scan)
    requires BelowRoot(logs) && r in Reports(logs, since, filter, dayOf)
    ensures Recorded(logs, filter, record) && r in ReportOf(record, scan) && scan.since == since && scan.dayOf == dayOf
  {
    ReportsFrom(logs, since, filter, dayOf, r);
    var f :| f in logs && Contains(f.parts[0], filter) && r in FileReports(f.records, ScanOf(f, since, dayOf));
    scan := ScanOf(f, since, dayOf);
    FileReportsFrom(f.records, scan, r);
    record :| record in f.records && r in ReportOf(record, scan);
  }

  /** And every such record gives one. */
  lemma {:induction false} ReportMade(logs: seq<LogFile>, since: string, filter: string, dayOf: DayOf, record: Fields,
                                      scan: Scan, r: Report)
    returns (q: Report)
    requires BelowRoot(logs) && Recorded(logs, filter, record)
    requires r in ReportOf(record, scan) && scan.since == since && scan.dayOf == dayOf
    ensures q in Reports(logs, since, filter, dayOf) && q.id == r.id && q.numbers == r.numbers
  {
    var f :| f in logs && Contains(f.parts[0], filter) && record in f.records;
    var other := ScanOf(f, since, dayOf);
    ReportElsewhere(record, scan, other, r);
    q := ReportOf(record, other)[0];
    FileReportsFrom(f.records, other, q);
    ReportsFrom(logs, since, filter, dayOf, q);
  }

  lemma {:induction false} SameRecordsSameReports(logs: seq<LogFile>, others: seq<LogFile>, since: string,
                                                  filter: string, dayOf: DayOf)
    requires BelowRoot(logs) && BelowRoot(others) && SameRecords(logs, others, filter)
    ensures SameReports(Reports(logs, since, filter, dayOf), Reports(others, since, filter, dayOf))
  {
    var a, b := Reports(logs, since, filter, dayOf), Reports(others, since, filter, dayOf);
    forall r | r in a ensures exists q :: q in b && q.id == r.id && q.numbers == r.numbers {
      var record, scan := ReportSource(logs, since, filter, dayOf, r);
      var q := ReportMade(others, since, filter, dayOf, record, scan, r);
    }
    forall r | r in b ensures exists q :: q in a && q.id == r.id && q.numbers == r.numbers {
      var record, scan := ReportSource(others, since, filter, dayOf, r);
      var q := ReportMade(logs, since, filter, dayOf, record, scan, r);
    }
  }

  /** Permuting or replaying log records, within a file or across files, changes no message's usage. */
  lemma {:induction false} OrderAndReplayIrrelevant(logs: seq<LogFile>, others: seq<LogFile>, since: string,
                                                    filter: string, dayOf: DayOf, id: string)
    requires BelowRoot(logs) && BelowRoot(others) && SameRecords(logs, others, filter)
    ensures Best(Reports(logs, since, filter, dayOf), id) == Best(Reports(others, since, filter, dayOf), id)
    ensures id in Ids(Reports(logs, since, filter, dayOf)) <==> id in Ids(Reports(others, since, filter, dayOf))
  {
    SameRecordsSameReports(logs, others, since, filter, dayOf);
    SameReportsSameBest(Reports(logs, since, filter, dayOf), Reports(others, since, filter, dayOf), id);
  }

  /** Calls over all tools. */
  function TotalCalls(names: seq<string>, kept: seq<Result>): nat {
    if names == [] then 0 else TotalCalls(names[..|names| - 1], kept) + TallyOf(kept, names[|names| - 1]).calls
  }

  lemma {:induction false} OneMoreCall(names: seq<string>, kept: seq<Result>, r: Result)
    requires Distinct(names)
    ensures TotalCalls(names, kept + [r]) == TotalCalls(names, kept) + if r.name in names then 1 else 0
  {
    assert (kept + [r])[..|kept|] == kept;
    if names != [] {
      assert names == names[..|names| - 1] + [names[|names| - 1]];
      OneMoreCall(names[..|names| - 1], kept, r);
    }
  }

  lemma {:induction false} ToolNamesDistinct(kept: seq<Result>)
    ensures Distinct(ToolNames(kept))
  {
    if kept != [] {
      ToolNamesDistinct(kept[..|kept| - 1]);
    }
  }

  /** Every counted result is credited to exactly one tool. */
  lemma {:induction false} CallsCountFresh(kept: seq<Result>)
    ensures TotalCalls(ToolNames(kept), kept) == |kept|
  {
    if kept != [] {
      var init, last := kept[..|kept| - 1], kept[|kept| - 1];
      var names := ToolNames(init);
      CallsCountFresh(init);
      ToolNamesDistinct(init);
      assert kept == init + [last];
      OneMoreCall(names, init, last);
      if last.name !in names {
        UnnamedIsZero(init, last.name);
        assert (names + [last.name])[..|names|] == names;
      }
    }
  }

  lemma {:induction false} FreshPerKey(results: seq<Result>)
    ensures |Fresh(results)| == |Keys(results)|
  {
    if results != [] {
      var init, last := results[..|results| - 1], results[|results| - 1];
      FreshPerKey(init);
      assert results == init + [last];
      KeysAppend(init, last);
      if last.Key() in Keys(init) {
        assert Keys(results) == Keys(init);
      }
    }
  }

  /** Tool calls total the number of distinct (uuid or path, tool id, index) keys: replayed records count once. */
  lemma {:induction false} CallsAreDistinctKeys(tools: Dict<Tally>, seen: set<Key>, results: seq<Result>)
    requires Counted(tools, seen, results)
    ensures TotalCalls(tools.keys, Fresh(results)) == |seen| == |Keys(results)|
  {
    CallsCountFresh(Fresh(results));
    FreshPerKey(results);
  }

  /** The total is the sum of the four counters. */
  ghost predicate FourCounters(samples: seq<Sample>) { forall s :: s in samples ==> s.usage.AddsUp() }

  /** One sample per distinct id, and its total is the sum of its four counters. */
  lemma {:induction false} OneSamplePerMessage(messages: Dict<Sample>, reports: seq<Report>)
    requires Holds(messages, reports)
    ensures |Values(messages)| == |set r | r in reports :: r.id|
    ensures SingleTurns(Values(messages)) && FourCounters(Values(messages))
  {
    IdsAreReported(reports);
    var ids := set r | r in reports :: r.id;
    var listed := set id | id in messages.keys;
    assert listed == ids;
    DistinctCount(messages.keys);
    forall s | s in Values(messages)
      ensures s.usage.AddsUp()
      ensures s.usage.turns == 1 && s.usage.largeContextTurns <= 1
    {
      var i :| 0 <= i < |Values(messages)| && Values(messages)[i] == s;
      assert s == messages.vals[messages.keys[i]];
    }
  }

  lemma {:induction false} DistinctCount(names: seq<string>)
    requires Distinct(names)
    ensures |set n | n in names| == |names|
  {
    if names != [] {
      var init, last := names[..|names| - 1], names[|names| - 1];
      DistinctCount(init);
      assert names == init + [last];
      assert (set n | n in names) == (set n | n in init) + {last};
    }
  }

  /** Sum of one usage per id. */
  function UsageOver(ids: seq<string>, u: string -> Usage): Usage {
    if ids == [] then ZERO else UsageOver(ids[..|ids| - 1], u).Plus(u(ids[|ids| - 1]))
  }

  lemma {:induction false} UsageOverAppend(ids: seq<string>, id: string, u: string -> Usage)
    ensures UsageOver(ids + [id], u) == UsageOver(ids, u).Plus(u(id))
  {
    assert (ids + [id])[..|ids|] == ids;
  }

  lemma {:induction false} SumIsUsageOver(samples: seq<Sample>, ids: seq<string>, u: string -> Usage)
    requires |samples| == |ids| && forall i :: 0 <= i < |ids| ==> samples[i].usage == u(ids[i])
    ensures Sum(samples) == UsageOver(ids, u)
  {
    if ids != [] {
      SumIsUsageOver(samples[..|samples| - 1], ids[..|ids| - 1], u);
    }
  }

  lemma {:induction false} Reassociate(a: Usage, b: Usage, c: Usage)
    ensures a.Plus(b).Plus(c) == a.Plus(c).Plus(b)
  {
  }

  /** An id in the middle can be counted last. */
  lemma {:induction false} TakeOut(before: seq<string>, id: string, after: seq<string>, u: string -> Usage)
    ensures UsageOver(before + [id] + after, u) == UsageOver(before + after, u).Plus(u(id))
    decreases |after|
  {
    if after == [] {
      assert before + [id] + after == before + [id] && before + after == before;
      UsageOverAppend(before, id, u);
    } else {
      var n := |after| - 1;
      var init, last := after[..n], after[n];
      TakeOut(before, id, init, u);
      assert before + [id] + after == (before + [id] + init) + [last] && before + after == (before + init) + [last];
      UsageOverAppend(before + [id] + init, last, u);
      UsageOverAppend(before + init, last, u);
      Reassociate(UsageOver(before + init, u), u(id), u(last));
    }
  }

  lemma {:induction false} DistinctWithout(before: seq<string>, id: string, after: seq<string>)
    requires Distinct(before + [id] + after)
    ensures Distinct(before + after) && id !in before && id !in after
  {
    var y := before + [id] + after;
    assert y[|before|] == id;
    forall i | 0 <= i < |before| ensures before[i] != id { assert y[i] == before[i]; }
    forall i | 0 <= i < |after| ensures after[i] != id { assert y[|before| + 1 + i] == after[i]; }
    forall i, j | 0 <= i < j < |before + after| ensures (before + after)[i] != (before + after)[j] {
      var a, b := if i < |before| then i else i + 1, if j < |before| then j else j + 1;
      assert (before + after)[i] == y[a] && (before + after)[j] == y[b];
    }
  }

  lemma {:induction false} RestAgrees(init: seq<string>, id: string, before: seq<string>, after: seq<string>)
    requires Distinct(init + [id]) && Distinct(before + [id] + after)
    requires forall i :: i in init + [id] <==> i in before + [id] + after
    ensures Distinct(init) && Distinct(before + after)
    ensures forall i :: i in init <==> i in before + after
  {
    assert init + [id] + [] == init + [id] && init + [] == init;
    DistinctWithout(init, id, []);
    DistinctWithout(before, id, after);
    forall i ensures i in init <==> i in before + after {
      assert i in init + [id] <==> i in init || i == id;
      assert i in before + [id] + after <==> i in before || i == id || i in after;
    }
  }

  lemma {:induction false} SameIdsSameUsage(x: seq<string>, y: seq<string>, u: string -> Usage)
    requires Distinct(x) && Distinct(y) && forall id :: id in x <==> id in y
    ensures UsageOver(x, u) == UsageOver(y, u)
    decreases |x|
  {
    assert y != [] ==> y[0] in y;
    if x != [] {
      var init, id := x[..|x| - 1], x[|x| - 1];
      assert id in x && x == init + [id];
      var k :| 0 <= k < |y| && y[k] == id;
      var before, after := y[..k], y[k + 1..];
      assert y == before + [id] + after;
      TakeOut(before, id, after, u);
      RestAgrees(init, id, before, after);
      SameIdsSameUsage(init, before + after, u);
    }
  }

  function BestUsage(reports: seq<Report>): string -> Usage { (id: string) => Best(reports, id).Usage() }

  lemma {:induction false} HeldUsage(m: Dict<Sample>, reports: seq<Report>)
    requires Holds(m, reports)
    ensures Sum(Values(m)) == UsageOver(Ids(reports), BestUsage(reports))
  {
    forall i | 0 <= i < |m.keys| ensures Values(m)[i].usage == BestUsage(reports)(m.keys[i]) {
      assert m.keys[i] in m.vals;
    }
    SumIsUsageOver(Values(m), m.keys, BestUsage(reports));
  }

  lemma {:induction false} SameUsageFunction(ids: seq<string>, u: string -> Usage, v: string -> Usage)
    requires forall id :: id in ids ==> u(id) == v(id)
    ensures UsageOver(ids, u) == UsageOver(ids, v)
  {
    if ids != [] {
      assert ids == ids[..|ids| - 1] + [ids[|ids| - 1]];
      SameUsageFunction(ids[..|ids| - 1], u, v);
    }
  }

  lemma {:induction false} SameReportsSameUsage(a: seq<Report>, b: seq<Report>)
    requires SameReports(a, b)
    ensures UsageOver(Ids(a), BestUsage(a)) == UsageOver(Ids(b), BestUsage(b))
  {
    IdsAreReported(a);
    IdsAreReported(b);
    forall id ensures BestUsage(a)(id) == BestUsage(b)(id) && (id in Ids(a) <==> id in Ids(b)) {
      SameReportsSameBest(a, b, id);
    }
    SameIdsSameUsage(Ids(a), Ids(b), BestUsage(a));
    SameUsageFunction(Ids(b), BestUsage(a), BestUsage(b));
  }

  /** The grand total does not depend on the order, the place or the number of copies of the log records. */
  lemma {:induction false} GrandTotalStable(m: Dict<Sample>, logs: seq<LogFile>, n: Dict<Sample>, others: seq<LogFile>,
                                            since: string, filter: string, dayOf: DayOf)
    requires BelowRoot(logs) && BelowRoot(others) && SameRecords(logs, others, filter)
    requires Holds(m, Reports(logs, since, filter, dayOf)) && Holds(n, Reports(others, since, filter, dayOf))
    ensures Sum(Values(m)) == Sum(Values(n))
  {
    var a, b := Reports(logs, since, filter, dayOf), Reports(others, since, filter, dayOf);
    SameRecordsSameReports(logs, others, since, filter, dayOf);
    HeldUsage(m, a);
    HeldUsage(n, b);
    SameReportsSameUsage(a, b);
  }
}
