/** The report on stdout, its sanitized copy, and the automatic merge of a base bump
    (ci/base-diff.py, ci/base-blast-diff.sh, ci/base-bump-guard.py). */
module BumpGuard {
  import opened Options
  import opened Strings
  import opened Versions
  import opened Orders
  import opened BaseDiff

  // ----- The report -----

  const NO_CHANGES := "_No blast-radius package changes._"

  function ChangedLines(changed: seq<Change>): string {
    if changed == [] then ""
    else
      var c := changed[|changed| - 1];
      ChangedLines(changed[..|changed| - 1]) + "\n- `" + c.name + "` " + c.before + " \U{2192} " + c.after
  }

  function AddedLines(added: seq<(string, string)>): string {
    if added == [] then ""
    else
      var a := added[|added| - 1];
      AddedLines(added[..|added| - 1]) + "\n- `" + a.0 + "` " + a.1
  }

  function RemovedLines(removed: seq<(string, string)>): string {
    if removed == [] then ""
    else
      var r := removed[|removed| - 1];
      RemovedLines(removed[..|removed| - 1]) + "\n- `" + r.0 + "` (was " + r.1 + ")"
  }

  function Sections(d: Diff): seq<string> {
    (if d.changed != [] then ["**Changed**" + ChangedLines(d.changed)] else []) +
    (if d.added != [] then ["**Added**" + AddedLines(d.added)] else []) +
    (if d.removed != [] then ["**Removed**" + RemovedLines(d.removed)] else [])
  }

  function Paragraphs(sections: seq<string>): string {
    if sections == [] then ""
    else if |sections| == 1 then sections[0]
    else sections[0] + "\n\n" + Paragraphs(sections[1..])
  }

  function Report(d: Diff): string { if Sections(d) == [] then NO_CHANGES else Paragraphs(Sections(d)) }

  const FIRST_RUN := "First run \U{2014} recording baseline.\n"

  /** What `base-diff.py` prints; without an old manifest everything is new. */
  function Stdout(first: bool, d: Diff): string { (if first then FIRST_RUN else "") + Report(d) + "\n" }

  // ----- The sanitizer -----

  predicate Safe(c: char) {
    || '0' <= c <= '9' || 'A' <= c <= 'Z' || 'a' <= c <= 'z' || c == '\n' || c == '.' || c == '_' || c == '+'
    || c == ':' || c == '~'
    || c == '^' || c == ' ' || c == '(' || c == ')' || c == '`' || c == '*' || c == '>' || c == '/' || c == '='
    || c == ',' || c == '-'
  }

  /** Arrows to ASCII, then only the safe characters. */
  function Cleaned(s: string): string {
    if s == "" then ""
    else (if s[0] == '\U{2192}' then "->" else if Safe(s[0]) then [s[0]] else "") + Cleaned(s[1..])
  }

  /** `head -n` */
  function HeadLines(s: string, n: nat): string
    decreases n
  {
    if n == 0 then ""
    else if Find(s, '\n') == |s| then s
    else s[..Find(s, '\n') + 1] + HeadLines(s[Find(s, '\n') + 1..], n - 1)
  }

  function HeadChars(s: string, n: nat): string { if |s| <= n then s else s[..n] }

  function Sanitized(s: string): string { HeadChars(HeadLines(Cleaned(s), 300), 20000) }

  // ----- blast_reason -----

  datatype Reason = NotComputed | PackagesChanged

  /** None when the diff is provably empty; no text when the report cannot be read. */
  function BlastReason(text: Option<string>): Option<Reason> {
    if text.None? || Strip(text.value) == "" then Some(NotComputed)
    else if Strip(text.value) == NO_CHANGES then None
    else Some(PackagesChanged)
  }

  lemma {:induction false} StripNewline(s: string)
    requires Trim(s)
    ensures Strip(s + "\n") == s
  {
    StripTrim(s);
    if s == "" {
      assert s + "\n" == "\n" && "\n"[1..] == "";
      assert LStrip("\n") == LStrip("\n"[1..]) == "";
    } else {
      assert (s + "\n")[..|s|] == s;
      assert RStrip(s + "\n") == RStrip(s);
    }
  }

  /** A text that opens with a character of its own is not the all-clear. */
  lemma {:induction false} OtherOpening(s: string)
    requires s != "" && !IsSpace(s[0]) && s[0] != '_'
    ensures BlastReason(Some(s)) == Some(PackagesChanged)
  {
    StripKeepsHead(s);
  }

  lemma {:induction false} ParagraphsStart(sections: seq<string>)
    requires sections != [] && sections[0] != ""
    ensures Paragraphs(sections) != "" && Paragraphs(sections)[0] == sections[0][0]
  {
  }

  lemma {:induction false} ReportStart(d: Diff)
    requires d != EMPTY
    ensures Report(d) != "" && Report(d)[0] == '*'
  {
    assert d.changed != [] || d.added != [] || d.removed != [];
    assert Sections(d) != [] && Sections(d)[0] != "" && Sections(d)[0][0] == '*';
    ParagraphsStart(Sections(d));
  }

  lemma EmptyReport()
    ensures Report(EMPTY) == NO_CHANGES && Trim(NO_CHANGES)
  {
  }

  /** The sanitizer keeps the first character when it is safe. */
  lemma {:induction false} SanitizedStart(s: string)
    requires s != "" && Safe(s[0]) && s[0] != '\n'
    ensures Sanitized(s) != "" && Sanitized(s)[0] == s[0]
  {
    var c := Cleaned(s);
    assert c == [s[0]] + Cleaned(s[1..]);
    assert HeadLines(c, 300) != "" && HeadLines(c, 300)[0] == s[0];
  }

  lemma {:induction false} CleanedSafe(s: string)
    requires forall i :: 0 <= i < |s| ==> Safe(s[i])
    ensures Cleaned(s) == s
  {
    if s != "" {
      CleanedSafe(s[1..]);
      assert s == [s[0]] + s[1..];
    }
  }

  lemma NoChangesSafe()
    ensures |NO_CHANGES| == 34 && forall i :: 0 <= i < |NO_CHANGES| ==> Safe(NO_CHANGES[i]) && NO_CHANGES[i] != '\n'
  {
  }

  lemma {:induction false} OneSafeLine(s: string)
    requires |s| < 20000 && forall i :: 0 <= i < |s| ==> Safe(s[i]) && s[i] != '\n'
    ensures Sanitized(s + "\n") == s + "\n"
  {
    var t := s + "\n";
    CleanedSafe(t);
    FindSpans(t, '\n', |s|);
    assert t[..|s| + 1] == t && t[|s| + 1..] == "";
    assert HeadLines("", 299) == "";
    assert HeadLines(t, 300) == t + HeadLines("", 299);
  }

  /** A report that opens with a safe character of its own is refused, sanitized or not. */
  lemma {:induction false} RefusedEitherWay(text: string)
    requires text != "" && Safe(text[0]) && !IsSpace(text[0]) && text[0] != '\n' && text[0] != '_'
    ensures BlastReason(Some(text)) == Some(PackagesChanged)
    ensures BlastReason(Some(Sanitized(text))) == Some(PackagesChanged)
  {
    SanitizedStart(text);
    OtherOpening(text);
    OtherOpening(Sanitized(text));
  }

  lemma {:induction false} ClearEitherWay()
    ensures BlastReason(Some(NO_CHANGES + "\n")) == None && BlastReason(Some(Sanitized(NO_CHANGES + "\n"))) == None
  {
    EmptyReport();
    NoChangesSafe();
    OneSafeLine(NO_CHANGES);
    StripNewline(NO_CHANGES);
  }

  lemma StdoutStart(first: bool, d: Diff)
    ensures first ==> Stdout(first, d) != "" && Stdout(first, d)[0] == 'F'
    ensures !first ==> Stdout(first, d) == Report(d) + "\n"
  {
    if first { assert Stdout(first, d) == FIRST_RUN + Report(d) + "\n"; }
  }

  /** The guard reads the report exactly: with both manifests present it finds nothing if and only if they agree on
      the blast radius, before and after sanitizing; a first run never passes. */
  lemma {:induction false} GuardIsExact(names: seq<string>, before: Manifest, after: Manifest, first: bool)
    requires Covers(names, before, after)
    ensures var text := Stdout(first, DiffOf(names, before, after));
            && (BlastReason(Some(text)) == None <==> !first && Restricted(before) == Restricted(after))
            && (BlastReason(Some(Sanitized(text))) == None <==> !first && Restricted(before) == Restricted(after))
  {
    var d := DiffOf(names, before, after);
    EmptyDiffExactly(names, before, after);
    StdoutStart(first, d);
    if first {
      RefusedEitherWay(Stdout(first, d));
    } else if d != EMPTY {
      ReportStart(d);
      RefusedEitherWay(Report(d) + "\n");
    } else {
      EmptyReport();
      ClearEitherWay();
    }
  }

  // ----- decide -----

  datatype Refusal =
    | Malformed | FedoraMajor | KernelDowngrade | BaseDowngrade | BaseBelowFloor | KernelBelowFloor
    | Blast(reason: Reason)

  datatype Base = Base(version: string, kernel: string)

  predicate Parses(b: Base) { BaseVersion(b.version).Some? && KernelVersion(b.kernel).Some? }

  lemma {:induction false} NumbersLength(s: string, separators: seq<string>)
    requires Numbers(s, separators).Some?
    ensures |Numbers(s, separators).value| == |separators|
    decreases |separators|
  {
    if separators != [] {
      var n := DigitRun(s);
      NumbersLength(s[n..][|separators[0]|..], separators[1..]);
    }
  }

  /** Fedora release of the kernel, and major version of the base. */
  function Fedora(b: Base): (nat, nat)
    requires Parses(b)
  {
    NumbersLength(b.kernel, KERNEL);
    (KernelVersion(b.kernel).value[5], BaseVersion(b.version).value[0])
  }

  /** `decide`: None merges the bump, anything else leaves it to a human. */
  function Decide(floor: Base, current: Base, next: Base, blast: Option<string>): Option<Refusal> {
    if !Parses(current) || !Parses(next) then Some(Malformed)
    else if Fedora(current) != Fedora(next) then Some(FedoraMajor)
    else if !Le(KernelVersion(current.kernel).value, KernelVersion(next.kernel).value) then Some(KernelDowngrade)
    else if !Le(BaseVersion(current.version).value, BaseVersion(next.version).value) then Some(BaseDowngrade)
    else if !Parses(floor) then Some(Malformed)
    else if !Le(BaseVersion(floor.version).value, BaseVersion(next.version).value) then Some(BaseBelowFloor)
    else if !Le(KernelVersion(floor.kernel).value, KernelVersion(next.kernel).value) then Some(KernelBelowFloor)
    else
      match BlastReason(blast)
      case Some(reason) => Some(Blast(reason))
      case None => None
  }

  predicate NotLower(a: Base, b: Base) {
    && Parses(a) && Parses(b)
    && Le(BaseVersion(a.version).value, BaseVersion(b.version).value)
    && Le(KernelVersion(a.kernel).value, KernelVersion(b.kernel).value)
  }

  /** A chain of bumps merged under one policy. */
  ghost predicate Merged(floor: Base, chain: seq<Base>, reports: seq<Option<string>>) {
    |reports| == |chain| && forall i :: 0 < i < |chain| ==> MergedAt(floor, chain, reports, i)
  }

  predicate MergedAt(floor: Base, chain: seq<Base>, reports: seq<Option<string>>, i: nat)
    requires 0 < i < |chain| == |reports|
  {
    Decide(floor, chain[i - 1], chain[i], reports[i]) == None
  }

  /** Along a chain of merged bumps the Fedora major never changes, nothing is ever lowered, and everything merged is
      above the floor. */
  lemma {:induction false} ChainNeverGoesBack(floor: Base, chain: seq<Base>, reports: seq<Option<string>>, i: nat,
                                              j: nat)
    requires Merged(floor, chain, reports) && i < j < |chain|
    ensures NotLower(chain[i], chain[j]) && Fedora(chain[i]) == Fedora(chain[j]) && NotLower(floor, chain[j])
    decreases j
  {
    assert MergedAt(floor, chain, reports, j);
    MergedStep(floor, chain[j - 1], chain[j], reports[j]);
    if i < j - 1 {
      ChainNeverGoesBack(floor, chain, reports, i, j - 1);
      NotLowerTransitive(chain[i], chain[j - 1], chain[j]);
    }
  }

  lemma MergedStep(floor: Base, current: Base, next: Base, blast: Option<string>)
    ensures Decide(floor, current, next, blast) == None ==>
              NotLower(current, next) && Fedora(current) == Fedora(next) && NotLower(floor, next)
  {
  }

  lemma NotLowerTransitive(a: Base, b: Base, c: Base)
    requires NotLower(a, b) && NotLower(b, c)
    ensures NotLower(a, c)
  {
    LeOrders(BaseVersion(a.version).value, BaseVersion(b.version).value, BaseVersion(c.version).value);
    LeOrders(KernelVersion(a.kernel).value, KernelVersion(b.kernel).value, KernelVersion(c.kernel).value);
  }
}
