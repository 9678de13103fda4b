/** The installed-RPM inventory and its SPDX document (ci/rpm-inventory-spdx.py).

    SHA-256 and the Unicode classes of decimal digits are functions given to the model. */
module RpmInventory {
  import opened Options
  import opened Strings
  import opened Orders

  /** A tuple of name, epoch, version, release and architecture. */
  type Record = seq<string>

  // ----- Text -----

  /** Index of the first character in the class, or the length. */
  function First(s: string, p: char -> bool): (n: nat)
    ensures n <= |s| && (n < |s| ==> p(s[n])) && forall i :: 0 <= i < n ==> !p(s[i])
  {
    if s == "" || p(s[0]) then 0 else 1 + First(s[1..], p)
  }

  /** Line boundaries of `str.splitlines`. */
  predicate IsBoundary(c: char) {
    '\n' <= c <= '\r' || '\U{1c}' <= c <= '\U{1e}' || c == '\U{85}' || c == '\U{2028}' || c == '\U{2029}'
  }

  function SplitLines(s: string): seq<string>
    decreases |s|
  {
    if s == "" then []
    else
      var n := First(s, IsBoundary);
      if n == |s| then [s]
      else [s[..n]] + SplitLines(s[n + (if s[n] == '\r' && n + 1 < |s| && s[n + 1] == '\n' then 2 else 1)..])
  }

  /** `field and field == field.strip()` */
  predicate FieldOk(f: string) { f != "" && f == Strip(f) }

  predicate Free(s: string, c: char) { forall i :: 0 <= i < |s| ==> s[i] != c }

  predicate Lacks(s: string, p: char -> bool) { forall i :: 0 <= i < |s| ==> !p(s[i]) }

  // ----- parse_inventory -----

  function Row(line: string, decimal: char -> bool): Option<Record> {
    var fields := Split(line, '\t');
    if |fields| != 5 || !(forall f | f in fields :: FieldOk(f)) || !All(fields[1], decimal) then None else Some(fields)
  }

  function Rows(lines: seq<string>, decimal: char -> bool): Option<seq<Record>> {
    if lines == [] then Some([])
    else
      match (Rows(lines[..|lines| - 1], decimal), Row(lines[|lines| - 1], decimal))
      case (Some(rs), Some(r)) => Some(rs + [r])
      case _ => None
  }

  ghost function Parse(text: string, decimal: char -> bool): Option<seq<Record>> {
    match Rows(SplitLines(text), decimal)
    case None => None
    case Some(rs) => if rs == [] || !Distinct(rs) then None else Some(Sort(FieldsLt, rs))
  }

  method ParseInventory(text: string, decimal: char -> bool) returns (r: Option<seq<Record>>)
    ensures r == Parse(text, decimal)
  {
    var lines := SplitLines(text);
    var records: seq<Record> := [];
    for n := 0 to |lines|
      invariant Rows(lines[..n], decimal) == Some(records)
    {
      assert lines[..n + 1][..n] == lines[..n];
      var row := Row(lines[n], decimal);
      if row.None? {
        RowsRefused(lines, n + 1, decimal);
        return None;
      }
      records := records + [row.value];
    }
    assert lines[..|lines|] == lines;
    if records == [] { return None; }
    Duplicates(records);
    if |set x | x in records| != |records| { return None; }
    return Some(Sort(FieldsLt, records));
  }

  lemma {:induction false} RowsRefused(lines: seq<string>, n: nat, decimal: char -> bool)
    requires n <= |lines| && Rows(lines[..n], decimal).None?
    ensures Rows(lines, decimal).None?
    decreases |lines| - n
  {
    if n == |lines| {
      assert lines[..n] == lines;
    } else {
      assert lines[..n + 1][..n] == lines[..n];
      RowsRefused(lines, n + 1, decimal);
    }
  }

  /** A list is free of duplicates exactly when its set has as many elements. */
  lemma {:induction false} Duplicates<T(!new)>(s: seq<T>)
    ensures |set x | x in s| <= |s|
    ensures |set x | x in s| == |s| <==> Distinct(s)
  {
    if s != [] {
      var init, last := s[..|s| - 1], s[|s| - 1];
      Duplicates(init);
      assert s == init + [last];
      if last in init {
        assert (set x | x in s) == (set x | x in init);
      } else {
        assert (set x | x in s) == (set x | x in init) + {last};
        assert Distinct(init) ==> Distinct(s);
      }
    }
  }

  // ----- Printing -----

  /** A record as `rpm` prints it: five clean fields, no line boundary or tab inside, a decimal epoch. */
  ghost predicate WellFormed(r: Record, decimal: char -> bool) {
    && |r| == 5 && (forall f :: f in r ==> FieldOk(f) && Free(f, '\t') && Lacks(f, IsBoundary))
    && All(r[1], decimal)
  }

  ghost predicate AllWellFormed(rs: seq<Record>, decimal: char -> bool) {
    forall i :: 0 <= i < |rs| ==> WellFormed(rs[i], decimal)
  }

  function PrintRow(r: Record): string { Join(r, '\t') }

  function Print(rs: seq<Record>): string {
    if rs == [] then "" else Print(rs[..|rs| - 1]) + PrintRow(rs[|rs| - 1]) + "\n"
  }

  function PrintedRows(rs: seq<Record>): seq<string> { seq(|rs|, i requires 0 <= i < |rs| => PrintRow(rs[i])) }

  lemma {:induction false} FirstIn(s: string, t: string, p: char -> bool)
    requires Lacks(s, p) && (t == "" || p(t[0]))
    ensures First(s + t, p) == |s|
  {
    if s == "" {
      assert s + t == t;
    } else {
      FirstIn(s[1..], t, p);
      assert (s + t)[1..] == s[1..] + t;
    }
  }

  ghost predicate AllLack(parts: seq<string>, p: char -> bool) { forall i :: 0 <= i < |parts| ==> Lacks(parts[i], p) }

  ghost predicate AllFree(parts: seq<string>, c: char) { forall i :: 0 <= i < |parts| ==> Free(parts[i], c) }

  lemma SplitFree(s: string, c: char)
    requires Free(s, c)
    ensures Split(s, c) == [s]
  {
    FindSpans(s, c, |s|);
    SplitStep(s, c, |s|);
  }

  lemma SplitHead(head: string, rest: string, c: char)
    requires Free(head, c)
    ensures Split(head + ([c] + rest), c) == [head] + Split(rest, c)
  {
    var s := head + ([c] + rest);
    assert forall i :: 0 <= i < |head| ==> s[i] == head[i];
    FindSpans(s, c, |head|);
    assert s[..|head|] == head && s[|head| + 1..] == rest;
    SplitStep(s, c, |head|);
  }

  /** Splitting a joined list gives the list back. */
  lemma {:induction false} SplitJoined(parts: seq<string>, c: char)
    requires parts != [] && AllFree(parts, c)
    ensures Split(Join(parts, c), c) == parts
  {
    if |parts| == 1 {
      SplitFree(parts[0], c);
    } else {
      var head, tail := parts[0], parts[1..];
      JoinHead(parts, c, head, tail);
      SplitJoined(tail, c);
      SplitHead(head, Join(tail, c), c);
    }
  }

  lemma JoinHead(parts: seq<string>, c: char, head: string, tail: seq<string>)
    requires |parts| > 1 && head == parts[0] && tail == parts[1..]
    ensures parts == [head] + tail && Join(parts, c) == head + ([c] + Join(tail, c))
  {
  }

  lemma {:induction false} JoinLacks(parts: seq<string>, c: char, p: char -> bool)
    requires AllLack(parts, p) && !p(c)
    ensures Lacks(Join(parts, c), p)
  {
    if |parts| > 1 { JoinLacks(parts[1..], c, p); }
  }

  lemma {:induction false} PrintRowReads(r: Record, decimal: char -> bool)
    requires WellFormed(r, decimal)
    ensures Row(PrintRow(r), decimal) == Some(r) && Lacks(PrintRow(r), IsBoundary)
  {
    assert forall i :: 0 <= i < |r| ==> r[i] in r;
    SplitJoined(r, '\t');
    JoinLacks(r, '\t', IsBoundary);
  }

  function Lines(lines: seq<string>): string {
    if lines == [] then "" else lines[0] + "\n" + Lines(lines[1..])
  }

  lemma {:induction false} LinesSplit(lines: seq<string>)
    requires AllLack(lines, IsBoundary)
    ensures SplitLines(Lines(lines)) == lines
  {
    if lines != [] {
      var rest := Lines(lines[1..]);
      var s := lines[0] + ("\n" + rest);
      LinesSplit(lines[1..]);
      assert Lines(lines) == s;
      FirstIn(lines[0], "\n" + rest, IsBoundary);
      assert s[|lines[0]|] == '\n' && s[..|lines[0]|] == lines[0] && s[|lines[0]| + 1..] == rest;
    }
  }

  lemma {:induction false} LinesMore(lines: seq<string>, l: string)
    ensures Lines(lines + [l]) == Lines(lines) + l + "\n"
  {
    if lines == [] {
      assert lines + [l] == [l] && [l][1..] == [];
    } else {
      LinesMore(lines[1..], l);
      assert (lines + [l])[1..] == lines[1..] + [l];
    }
  }

  lemma {:induction false} PrintIsLines(rs: seq<Record>)
    ensures Print(rs) == Lines(PrintedRows(rs))
  {
    if rs != [] {
      PrintIsLines(rs[..|rs| - 1]);
      LinesMore(PrintedRows(rs[..|rs| - 1]), PrintRow(rs[|rs| - 1]));
      assert PrintedRows(rs) == PrintedRows(rs[..|rs| - 1]) + [PrintRow(rs[|rs| - 1])];
    }
  }

  lemma RowsLack(rs: seq<Record>, decimal: char -> bool)
    requires AllWellFormed(rs, decimal)
    ensures AllLack(PrintedRows(rs), IsBoundary)
  {
    forall i | 0 <= i < |rs| ensures Lacks(PrintedRows(rs)[i], IsBoundary) { PrintRowReads(rs[i], decimal); }
  }

  lemma {:induction false} RowsRead(rs: seq<Record>, decimal: char -> bool)
    requires AllWellFormed(rs, decimal)
    ensures Rows(PrintedRows(rs), decimal) == Some(rs)
  {
    if rs != [] {
      var n := |rs| - 1;
      RowsRead(rs[..n], decimal);
      PrintRowReads(rs[n], decimal);
      assert PrintedRows(rs)[..n] == PrintedRows(rs[..n]);
      assert rs == rs[..n] + [rs[n]];
    }
  }

  /** Parsing a printed inventory sorts it. */
  lemma {:induction false} PrintedInventoryReads(rs: seq<Record>, decimal: char -> bool)
    requires rs != [] && Distinct(rs) && AllWellFormed(rs, decimal)
    ensures Parse(Print(rs), decimal) == Some(Sort(FieldsLt, rs))
  {
    PrintIsLines(rs);
    RowsRead(rs, decimal);
    RowsLack(rs, decimal);
    LinesSplit(PrintedRows(rs));
  }

  // ----- What is accepted -----

  lemma {:induction false} SplitParts(s: string, c: char)
    ensures AllFree(Split(s, c), c)
    decreases |s|
  {
    var n := Find(s, c);
    assert Free(s[..n], c);
    if n < |s| {
      SplitParts(s[n + 1..], c);
      AllFreeMore(s[..n], Split(s[n + 1..], c), c);
    } else {
      assert s[..n] == s;
    }
  }

  lemma AllFreeMore(a: string, rest: seq<string>, c: char)
    requires Free(a, c) && AllFree(rest, c)
    ensures AllFree([a] + rest, c)
  {
  }

  lemma {:induction false} SplitKeeps(s: string, c: char, q: char -> bool)
    requires Lacks(s, q)
    ensures AllLack(Split(s, c), q)
    decreases |s|
  {
    var n := Find(s, c);
    if n < |s| {
      SplitKeeps(s[n + 1..], c, q);
      AllLackMore(s[..n], Split(s[n + 1..], c), q);
    }
  }

  lemma AllLackMore(a: string, rest: seq<string>, p: char -> bool)
    requires Lacks(a, p) && AllLack(rest, p)
    ensures AllLack([a] + rest, p)
  {
  }

  lemma {:induction false} SplitLinesParts(s: string)
    ensures AllLack(SplitLines(s), IsBoundary)
    decreases |s|
  {
    if s != "" {
      var n := First(s, IsBoundary);
      if n < |s| { SplitLinesParts(s[n + (if s[n] == '\r' && n + 1 < |s| && s[n + 1] == '\n' then 2 else 1)..]); }
    }
  }

  lemma {:induction false} RowWellFormed(line: string, decimal: char -> bool)
    requires Row(line, decimal).Some? && Lacks(line, IsBoundary)
    ensures WellFormed(Row(line, decimal).value, decimal)
  {
    SplitParts(line, '\t');
    SplitKeeps(line, '\t', IsBoundary);
  }

  lemma {:induction false} RowsWellFormed(lines: seq<string>, decimal: char -> bool)
    requires Rows(lines, decimal).Some? && AllLack(lines, IsBoundary)
    ensures AllWellFormed(Rows(lines, decimal).value, decimal)
  {
    if lines != [] {
      RowsWellFormed(lines[..|lines| - 1], decimal);
      RowWellFormed(lines[|lines| - 1], decimal);
    }
  }

  /** What is accepted is a sorted, duplicate-free list of well-formed records, and printing it reads back the same. */
  lemma {:induction false} AcceptedInventory(text: string, decimal: char -> bool)
    requires Parse(text, decimal).Some?
    ensures var rs := Parse(text, decimal).value;
            rs != [] && StrictlySorted(FieldsLt, rs) && AllWellFormed(rs, decimal)
                && Parse(Print(rs), decimal) == Some(rs)
  {
    var raw := Rows(SplitLines(text), decimal).value;
    SplitLinesParts(text);
    RowsWellFormed(SplitLines(text), decimal);
    FieldsTotal();
    SortSorts(FieldsLt, raw);
    var rs := Sort(FieldsLt, raw);
    forall i | 0 <= i < |rs| ensures WellFormed(rs[i], decimal) {
      assert rs[i] in raw;
      var j :| 0 <= j < |raw| && raw[j] == rs[i];
    }
    StrictlySortedDistinct(FieldsLt, rs);
    PrintedInventoryReads(rs, decimal);
    SortSorts(FieldsLt, rs);
    SortedUnique(FieldsLt, Sort(FieldsLt, rs), rs);
  }

  // ----- The document -----

  type Sha = string -> string

  datatype Package = Package(spdxId: string, name: string, versionInfo: string)

  datatype Document = Document(documentNamespace: string, created: string, packages: seq<Package>,
                               described: seq<string>)

  function Digest16(s: string): string { if |s| >= 16 then s[..16] else s }

  function PackageId(r: Record, sha: Sha): string { "SPDXRef-RPM-" + Digest16(sha(Join(r, '\t'))) }

  /** The text whose hash names the document. */
  function Canonical(rs: seq<Record>, created: string): string { Join(PrintedRows(rs), '\n') + "\ncreated=" + created }

  function PackageOf(r: Record, sha: Sha): Package
    requires |r| == 5
  {
    Package(PackageId(r, sha), r[0], r[1] + ":" + r[2] + "-" + r[3] + "." + r[4])
  }

  const NAMESPACE := "https://spdx.org/spdxdocs/bazzite-tower-rpm-inventory-"

  /** The document of a list of records. */
  function DocumentOf(rs: seq<Record>, created: string, sha: Sha): Document
    requires forall i :: 0 <= i < |rs| ==> |rs[i]| == 5
  {
    var packages := seq(|rs|, i requires 0 <= i < |rs| => PackageOf(rs[i], sha));
    Document(NAMESPACE + sha(Canonical(rs, created)), created, packages,
             seq(|rs|, i requires 0 <= i < |rs| => PackageId(rs[i], sha)))
  }

  /** `make_document`: one package and one relationship to it per record, in order. */
  method MakeDocument(rs: seq<Record>, created: string, sha: Sha) returns (d: Document)
    requires forall i :: 0 <= i < |rs| ==> |rs[i]| == 5
    ensures d == DocumentOf(rs, created, sha)
    ensures |d.packages| == |rs| == |d.described|
    ensures forall i :: 0 <= i < |rs|
              ==> d.packages[i] == PackageOf(rs[i], sha) && d.described[i] == d.packages[i].spdxId
  {
    var packages: seq<Package>, relationships: seq<string> := [], [];
    for n := 0 to |rs|
      invariant |packages| == n == |relationships|
      invariant forall i :: 0 <= i < n
                  ==> packages[i] == PackageOf(rs[i], sha) && relationships[i] == packages[i].spdxId
    {
      var id := PackageId(rs[n], sha);
      packages := packages + [Package(id, rs[n][0], rs[n][1] + ":" + rs[n][2] + "-" + rs[n][3] + "." + rs[n][4])];
      relationships := relationships + [id];
    }
    return Document(NAMESPACE + sha(Canonical(rs, created)), created, packages, relationships);
  }

  /** Two accepted inventories with the same rows, in whatever order and spelling, give the same records and the
      same document. */
  lemma {:induction false} RowOrderIrrelevant(text: string, other: string, decimal: char -> bool, created: string,
                                              sha: Sha)
    requires Parse(text, decimal).Some? && Parse(other, decimal).Some?
    requires forall r :: r in Rows(SplitLines(text), decimal).value <==> r in Rows(SplitLines(other), decimal).value
    ensures Parse(text, decimal) == Parse(other, decimal)
    ensures forall i :: 0 <= i < |Parse(text, decimal).value| ==> |Parse(text, decimal).value[i]| == 5
    ensures DocumentOf(Parse(text, decimal).value, created, sha)
         == DocumentOf(Parse(other, decimal).value, created, sha)
  {
    var raw, ss := Rows(SplitLines(text), decimal).value, Rows(SplitLines(other), decimal).value;
    FieldsTotal();
    SortSorts(FieldsLt, raw);
    SortSorts(FieldsLt, ss);
    SortedUnique(FieldsLt, Sort(FieldsLt, raw), Sort(FieldsLt, ss));
    AcceptedInventory(text, decimal);
    assert AllWellFormed(Parse(text, decimal).value, decimal);
  }

  lemma {:induction false} CanonicalLines(rs: seq<Record>, created: string, decimal: char -> bool)
    requires rs != [] && AllWellFormed(rs, decimal) && Free(created, '\n')
    ensures Split(Canonical(rs, created), '\n') == PrintedRows(rs) + ["created=" + created]
  {
    var rows, stamp := PrintedRows(rs), "created=" + created;
    JoinMore(rows, stamp, '\n');
    assert Canonical(rs, created) == Join(rows + [stamp], '\n');
    LinesFree(rs, created, decimal);
    SplitJoined(rows + [stamp], '\n');
  }

  lemma LinesFree(rs: seq<Record>, created: string, decimal: char -> bool)
    requires AllWellFormed(rs, decimal) && Free(created, '\n')
    ensures AllFree(PrintedRows(rs) + ["created=" + created], '\n')
  {
    RowsLack(rs, decimal);
    forall i | 0 <= i < |rs| ensures Free(PrintedRows(rs)[i], '\n') { assert Lacks(PrintedRows(rs)[i], IsBoundary); }
  }

  /** The hashed text determines the records and the timestamp. */
  lemma {:induction false} CanonicalInjective(rs: seq<Record>, created: string, ss: seq<Record>, at: string,
                                              decimal: char -> bool)
    requires rs != [] && AllWellFormed(rs, decimal) && ss != [] && AllWellFormed(ss, decimal)
    requires Free(created, '\n') && Free(at, '\n')
    requires Canonical(rs, created) == Canonical(ss, at)
    ensures rs == ss && created == at
  {
    CanonicalLines(rs, created, decimal);
    CanonicalLines(ss, at, decimal);
    var a, b := PrintedRows(rs) + ["created=" + created], PrintedRows(ss) + ["created=" + at];
    assert a == b && a[|rs|] == b[|rs|];
    assert ("created=" + created)[8..] == created && ("created=" + at)[8..] == at;
    assert PrintedRows(rs) == a[..|rs|] == b[..|ss|] == PrintedRows(ss);
    forall i | 0 <= i < |rs| ensures rs[i] == ss[i] {
      PrintRowReads(rs[i], decimal);
      PrintRowReads(ss[i], decimal);
      assert PrintedRows(rs)[i] == PrintedRows(ss)[i];
    }
  }
}
