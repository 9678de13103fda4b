/** The line grammar for installed Flatpak metadata, and why two readers cannot disagree on it
    (system_files/usr/libexec/bazzite-tower-snitchwatch-common.py, `METADATA_LINE`).

    One reader is Python's `configparser` (strict, no interpolation, case kept); the other is the
    key-file format of section 3 of the Desktop Entry Specification, which Flatpak uses. */
module MetadataReaders {
  import opened Options
  import opened Strings

  // ----- Characters and lines -----

  predicate IsControl(c: char) { c < ' ' || c == '\U{7f}' }

  /** The lines a text stream yields, without their terminators. */
  function StreamLines(text: string): seq<string>
    decreases |text|
  {
    if text == "" then []
    else
      var n := Find(text, '\n');
      if n == |text| then [text] else [text[..n]] + StreamLines(text[n + 1..])
  }

  function Body(text: string): string {
    if text != "" && text[|text| - 1] == '\n' then text[..|text| - 1] else text
  }

  lemma {:induction false} FindBefore(s: string, c: char)
    requires s != "" && Find(s, c) < |s| - 1
    ensures Find(s[..|s| - 1], c) == Find(s, c)
  {
    var n, m := Find(s, c), Find(s[..|s| - 1], c);
    assert s[..|s| - 1][n] == c;
    assert m < |s| - 1 ==> s[m] == c;
  }

  lemma {:induction false} BodyTail(text: string, n: nat)
    requires n == Find(text, '\n') < |text| - 1
    ensures n == Find(Body(text), '\n') < |Body(text)|
    ensures Body(text)[..n] == text[..n] && Body(text)[n + 1..] == Body(text[n + 1..])
  {
    var rest := text[n + 1..];
    assert rest[|rest| - 1] == text[|text| - 1];
    if text[|text| - 1] == '\n' {
      FindBefore(text, '\n');
    }
  }

  lemma SplitOnce(body: string, n: nat)
    requires n == Find(body, '\n')
    ensures Split(body, '\n') == if n == |body| then [body] else [body[..n]] + Split(body[n + 1..], '\n')
  {
    SplitStep(body, '\n', n);
  }

  lemma LastLine(text: string, n: nat)
    requires text != "" && n == Find(text, '\n') >= |text| - 1
    ensures Body(text) == text[..n] && Find(text[..n], '\n') == n
    ensures StreamLines(text) == [text[..n]]
  {
    FindSpans(text[..n], '\n', n);
    assert n == |text| - 1 ==> text[n + 1..] == "";
    assert n == |text| ==> text[..n] == text && text[|text| - 1] != '\n';
  }

  lemma StreamStep(text: string, n: nat)
    requires n == Find(text, '\n') < |text|
    ensures StreamLines(text) == [text[..n]] + StreamLines(text[n + 1..])
  {
  }

  /** The stream yields the lines the grammar check looks at; an empty text has one empty line to check. */
  lemma {:induction false} SameLines(text: string)
    ensures StreamLines(text) == if text == "" then [] else Split(Body(text), '\n')
    decreases |text|
  {
    if text != "" {
      var n := Find(text, '\n');
      if n < |text| - 1 {
        SameLines(text[n + 1..]);
        StreamStep(text, n);
        BodyTail(text, n);
        SplitOnce(Body(text), n);
      } else {
        LastLine(text, n);
        SplitOnce(text[..n], n);
      }
    }
  }

  // ----- The grammar -----

  predicate KeyChar(c: char) { 'A' <= c <= 'Z' || 'a' <= c <= 'z' || '0' <= c <= '9' || c in {'.', '_', '-'} }

  predicate LocaleChar(c: char) { KeyChar(c) || c == '@' }

  /** `[A-Za-z0-9._-]+(\[[A-Za-z0-9@_.-]+\])?` */
  predicate KeyOk(k: string) {
    var n := Find(k, '[');
    && n > 0 && All(k[..n], KeyChar)
    && (n == |k| || (|k| >= n + 3 && k[|k| - 1] == ']' && All(k[n + 1..|k| - 1], LocaleChar)))
  }

  predicate EndOk(c: char) { !IsSpace(c) && !IsControl(c) }

  predicate MiddleOk(c: char) { c == '\t' || !IsControl(c) }

  /** `METADATA_VALUE` */
  predicate ValueOk(v: string) {
    v == "" || (EndOk(v[0]) && EndOk(v[|v| - 1]) && (|v| > 2 ==> All(v[1..|v| - 1], MiddleOk)))
  }

  predicate NameChar(c: char) { c != '[' && c != ']' && !IsControl(c) }

  predicate HeaderOk(l: string) { |l| >= 3 && l[0] == '[' && l[|l| - 1] == ']' && All(l[1..|l| - 1], NameChar) }

  predicate EntryOk(l: string) { Find(l, '=') < |l| && KeyOk(l[..Find(l, '=')]) && ValueOk(l[Find(l, '=') + 1..]) }

  predicate NoControl(s: string) { forall i :: 0 <= i < |s| ==> !IsControl(s[i]) }

  /** `METADATA_LINE.fullmatch` */
  predicate LineOk(l: string) { l == "" || (l[0] == '#' && NoControl(l[1..])) || HeaderOk(l) || EntryOk(l) }

  ghost predicate Canonical(text: string) {
    forall i :: 0 <= i < |Split(Body(text), '\n')| ==> LineOk(Split(Body(text), '\n')[i])
  }

  /** The first line the grammar refuses. */
  method BadLine(text: string) returns (bad: Option<nat>)
    ensures bad.None? <==> Canonical(text)
    ensures bad.Some? ==> 0 < bad.value <= |Split(Body(text), '\n')| && !LineOk(Split(Body(text), '\n')[bad.value - 1])
    ensures bad.Some? ==> forall i :: 0 <= i < bad.value - 1 ==> LineOk(Split(Body(text), '\n')[i])
  {
    var lines := Split(Body(text), '\n');
    for i := 0 to |lines|
      invariant forall j :: 0 <= j < i ==> LineOk(lines[j])
    {
      if !LineOk(lines[i]) { return Some(i + 1); }
    }
    return None;
  }

  // ----- The key-file reading -----

  datatype Entry = Entry(group: string, key: string, value: string)

  datatype KeyFile = KeyFile(group: Option<string>, entries: seq<Entry>)

  function DropSpaces(s: string): string { if s != "" && s[0] == ' ' then DropSpaces(s[1..]) else s }

  function ChopSpaces(s: string): string { if s != "" && s[|s| - 1] == ' ' then ChopSpaces(s[..|s| - 1]) else s }

  /** One line of a key file: a comment, a group header, or KEY=VALUE with spaces around the sign ignored. */
  function KeyFileStep(s: KeyFile, l: string): Option<KeyFile> {
    if l == "" || l[0] == '#' then Some(s)
    else if l[0] == '[' then
      if |l| >= 3 && l[|l| - 1] == ']' then Some(s.(group := Some(l[1..|l| - 1]))) else None
    else
      var n := Find(l, '=');
      if n == |l| || ChopSpaces(l[..n]) == "" || s.group.None? then None
      else Some(s.(entries := s.entries + [Entry(s.group.value, ChopSpaces(l[..n]), DropSpaces(l[n + 1..]))]))
  }

  function KeyFileRun(lines: seq<string>): Option<KeyFile> {
    if lines == [] then Some(KeyFile(None, []))
    else
      match KeyFileRun(lines[..|lines| - 1])
      case None => None
      case Some(s) => KeyFileStep(s, lines[|lines| - 1])
  }

  function KeyFileEntries(text: string): Option<seq<Entry>> {
    match KeyFileRun(StreamLines(text))
    case None => None
    case Some(s) => Some(s.entries)
  }

  // ----- The configparser reading -----

  /** An option and its value lines, joined when the file ends. */
  datatype Opt = Opt(name: string, lines: seq<string>)

  datatype Section = Section(name: string, options: seq<Opt>)

  /** Where options go: no section yet, the defaults, or the section opened last. */
  datatype Where = Nowhere | Defaults | Last

  datatype Parser = Parser(sections: seq<Section>, defaults: seq<Opt>, cursect: Where, optname: bool, indent: nat)

  const DEFAULT := "DEFAULT"

  predicate Valid(p: Parser) {
    && (p.cursect == Last ==> p.sections != [])
    && (p.optname ==> p.cursect != Nowhere && Current(p) != [])
  }

  function Current(p: Parser): seq<Opt>
    requires p.cursect == Last ==> p.sections != []
  {
    match p.cursect
    case Nowhere => []
    case Defaults => p.defaults
    case Last => p.sections[|p.sections| - 1].options
  }

  function WithCurrent(p: Parser, options: seq<Opt>): Parser
    requires p.cursect == Last ==> p.sections != []
  {
    match p.cursect
    case Nowhere => p
    case Defaults => p.(defaults := options)
    case Last =>
      var n := |p.sections| - 1;
      p.(sections := p.sections[n := p.sections[n].(options := options)])
  }

  /** Add a line to the open option. */
  function Continued(p: Parser, value: string): Parser
    requires Valid(p) && p.optname
  {
    var o := Current(p);
    var n := |o| - 1;
    WithCurrent(p, o[n := o[n].(lines := o[n].lines + [value])])
  }

  /** Column of the first character that is no white space. */
  function Indent(line: string): nat { if line == "" || !IsSpace(line[0]) then 0 else 1 + Indent(line[1..]) }

  /** End of the header a section line matches: its last `]`. */
  function LastBracket(s: string): (n: nat)
    ensures n <= |s| && (n < |s| ==> s[n] == ']')
  {
    if s == "" then 0
    else if s[|s| - 1] == ']' then |s| - 1
    else
      var n := LastBracket(s[..|s| - 1]);
      if n == |s| - 1 then |s| else n
  }

  predicate IsHeader(value: string) { value != "" && value[0] == '[' && 2 <= LastBracket(value) < |value| }

  function Delimiter(value: string): nat {
    if Find(value, '=') < Find(value, ':') then Find(value, '=') else Find(value, ':')
  }

  predicate HasSection(sections: seq<Section>, name: string) {
    exists i :: 0 <= i < |sections| && sections[i].name == name
  }

  predicate HasOption(options: seq<Opt>, name: string) { exists i :: 0 <= i < |options| && options[i].name == name }

  function OpenSection(p: Parser, name: string): Option<Parser> {
    if HasSection(p.sections, name) then None // DuplicateSectionError
    else if name == DEFAULT then Some(p.(cursect := Defaults, optname := false))
    else Some(p.(sections := p.sections + [Section(name, [])], cursect := Last, optname := false))
  }

  function AddOption(p: Parser, value: string): Option<Parser>
    requires Valid(p)
  {
    var n := Delimiter(value);
    if n >= |value| || RStrip(value[..n]) == "" then None // ParsingError
    else if HasOption(Current(p), RStrip(value[..n])) then None // DuplicateOptionError
    else Some(WithCurrent(p, Current(p) + [Opt(RStrip(value[..n]), [Strip(value[n + 1..])])]).(optname := true))
  }

  /** One line of `RawConfigParser._read`. */
  function ConfigStep(p: Parser, line: string): Option<Parser>
    requires Valid(p)
  {
    var bare := Strip(line);
    var comment := bare != "" && bare[0] in {'#', ';'};
    var value := if comment then "" else bare;
    if value == "" then Some(if !comment && p.optname then Continued(p, "") else p)
    else if p.optname && Indent(line) > p.indent then Some(Continued(p, value))
    else
      var q := p.(indent := Indent(line));
      if IsHeader(value) then OpenSection(q, value[1..LastBracket(value)])
      else if p.cursect == Nowhere then None // MissingSectionHeaderError
      else AddOption(q, value)
  }

  lemma {:induction false} StepValid(p: Parser, line: string)
    requires Valid(p) && ConfigStep(p, line).Some?
    ensures Valid(ConfigStep(p, line).value)
  {
  }

  function ConfigRun(lines: seq<string>): (r: Option<Parser>)
    ensures r.Some? ==> Valid(r.value)
  {
    if lines == [] then Some(Parser([], [], Nowhere, false, 0))
    else
      match ConfigRun(lines[..|lines| - 1])
      case None => None
      case Some(p) =>
        var last := lines[|lines| - 1];
        if ConfigStep(p, last).Some? then
          StepValid(p, last);
          ConfigStep(p, last)
        else None
  }

  function Finished(o: Opt): string { RStrip(Join(o.lines, '\n')) }

  /** Entries of one list of options, as entries of a group. */
  function Own(group: string, options: seq<Opt>): seq<Entry> {
    seq(|options|, i requires 0 <= i < |options| => Entry(group, options[i].name, Finished(options[i])))
  }

  /** The options that the others do not name. */
  function Missing(options: seq<Opt>, others: seq<Opt>): seq<Opt> {
    if options == [] then []
    else
      Missing(options[..|options| - 1], others) +
      if HasOption(others, options[|options| - 1].name) then [] else [options[|options| - 1]]
  }

  /** A section as its proxy shows it: its own options, followed by the defaults it does not override. */
  function View(s: Section, defaults: seq<Opt>): seq<Entry> {
    Own(s.name, s.options) + Own(s.name, Missing(defaults, s.options))
  }

  function Views(sections: seq<Section>, defaults: seq<Opt>): seq<Entry> {
    if sections == [] then []
    else Views(sections[..|sections| - 1], defaults) + View(sections[|sections| - 1], defaults)
  }

  /** Everything `meta[section][key]` yields, section by section. */
  function ConfigEntries(text: string): Option<seq<Entry>> {
    match ConfigRun(StreamLines(text))
    case None => None
    case Some(p) => Some(Views(p.sections, p.defaults))
  }

  // ----- One canonical line in both readers -----

  /** Keys hold no delimiter, no white space and no opening bracket in front. */
  lemma {:induction false} KeyChars(k: string)
    requires KeyOk(k)
    ensures k != "" && forall i :: 0 <= i < |k| ==> k[i] != ':' && !IsSpace(k[i])
    ensures k[0] !in {'[', '#', ';'} && Trim(k) && k[|k| - 1] != ' '
  {
    var n := Find(k, '[');
    forall i | 0 <= i < |k| ensures k[i] != ':' && !IsSpace(k[i]) {
      if i < n {
        assert KeyChar(k[..n][i]);
      } else if n < i < |k| - 1 {
        assert LocaleChar(k[n + 1..|k| - 1][i - n - 1]);
      }
    }
    assert KeyChar(k[..n][0]);
  }

  lemma {:induction false} ValueTrim(v: string)
    requires ValueOk(v)
    ensures Trim(v) && (v != "" ==> v[0] != ' ')
  {
  }

  /** What an entry line says. */
  function KeyOf(l: string): string { l[..Find(l, '=')] }

  function ValueOf(l: string): string
    requires Find(l, '=') < |l|
  {
    l[Find(l, '=') + 1..]
  }

  lemma {:induction false} EntryLine(l: string)
    requires EntryOk(l)
    ensures Trim(l) && l != "" && l[0] !in {'[', '#', ';'}
    ensures Delimiter(l) == Find(l, '=') < |l|
    ensures RStrip(KeyOf(l)) == KeyOf(l) == ChopSpaces(KeyOf(l)) && KeyOf(l) != ""
    ensures Strip(ValueOf(l)) == ValueOf(l) == DropSpaces(ValueOf(l)) && Trim(ValueOf(l))
  {
    var n := Find(l, '=');
    KeyChars(KeyOf(l));
    ValueTrim(ValueOf(l));
    StripTrim(KeyOf(l));
    StripTrim(ValueOf(l));
    assert l[0] == KeyOf(l)[0];
    assert n < |l| - 1 ==> l[|l| - 1] == ValueOf(l)[|l| - n - 2];
    assert forall i :: 0 <= i < n ==> l[i] == KeyOf(l)[i];
    FindSpans(l, ':', n);
  }

  lemma {:induction false} LastBracketUnique(s: string)
    requires s != "" && s[|s| - 1] == ']'
    ensures LastBracket(s) == |s| - 1
  {
  }

  /** Canonical lines start in the first column, and only comments begin like one. */
  lemma {:induction false} LineStarts(l: string)
    requires LineOk(l) && l != ""
    ensures !IsSpace(l[0]) && Indent(l) == 0 && l[0] != ';'
  {
    if EntryOk(l) { EntryLine(l); }
  }

  datatype Kind = Blank | Comment | Header(name: string) | Pair(key: string, value: string)

  lemma {:induction false} BracketLine(l: string)
    requires LineOk(l) && l != "" && l[0] == '['
    ensures HeaderOk(l) && Trim(l) && IsHeader(l) && LastBracket(l) == |l| - 1
  {
    if EntryOk(l) { EntryLine(l); }
    LastBracketUnique(l);
  }

  /** The one meaning of a canonical line. */
  function KindOf(l: string): Kind
    requires LineOk(l)
  {
    if l == "" then Blank
    else if l[0] == '#' then Comment
    else if l[0] == '[' then BracketLine(l); Header(l[1..|l| - 1])
    else Pair(KeyOf(l), ValueOf(l))
  }

  lemma {:induction false} KeyFileKind(s: KeyFile, l: string)
    requires LineOk(l)
    ensures KeyFileStep(s, l) ==
            match KindOf(l)
            case Blank => Some(s)
            case Comment => Some(s)
            case Header(name) => Some(s.(group := Some(name)))
            case Pair(k, v) =>
              if s.group.None? then None else Some(s.(entries := s.entries + [Entry(s.group.value, k, v)]))
  {
    if l == "" || l[0] == '#' {
    } else if l[0] == '[' {
      BracketLine(l);
    } else {
      EntryLine(l);
    }
  }

  lemma {:induction false} ConfigPair(p: Parser, l: string)
    requires Valid(p) && p.indent == 0 && EntryOk(l)
    ensures ConfigStep(p, l) ==
            if p.cursect == Nowhere || HasOption(Current(p), KeyOf(l)) then None
            else Some(WithCurrent(p, Current(p) + [Opt(KeyOf(l), [ValueOf(l)])]).(optname := true))
  {
    EntryLine(l);
    LineStarts(l);
    StripTrim(l);
    assert p.(indent := Indent(l)) == p;
    assert KeyOf(l) == l[..Delimiter(l)] && ValueOf(l) == l[Delimiter(l) + 1..];
  }

  lemma {:induction false} ConfigKind(p: Parser, l: string)
    requires Valid(p) && p.indent == 0 && LineOk(l)
    ensures ConfigStep(p, l) ==
            match KindOf(l)
            case Blank => Some(if p.optname then Continued(p, "") else p)
            case Comment => Some(p)
            case Header(name) => OpenSection(p, name)
            case Pair(k, v) =>
              if p.cursect == Nowhere || HasOption(Current(p), k) then None
              else Some(WithCurrent(p, Current(p) + [Opt(k, [v])]).(optname := true))
  {
    if l == "" {
      assert Strip(l) == "";
    } else if l[0] == '#' {
      StripKeepsHead(l);
    } else if l[0] == '[' {
      BracketLine(l);
      LineStarts(l);
      StripTrim(l);
      assert p.(indent := Indent(l)) == p;
    } else {
      ConfigPair(p, l);
    }
  }

  // ----- Padded values -----

  /** A value line, then blank lines. */
  ghost predicate Padded(o: Opt) {
    o.lines != [] && Trim(o.lines[0]) && forall i :: 1 <= i < |o.lines| ==> o.lines[i] == ""
  }

  ghost predicate AllPadded(options: seq<Opt>) { forall i :: 0 <= i < |options| ==> Padded(options[i]) }

  lemma {:induction false} RStripNewline(s: string)
    ensures RStrip(s + "\n") == RStrip(s)
  {
    assert (s + "\n")[..|s|] == s;
  }

  lemma {:induction false} JoinedPadded(lines: seq<string>)
    requires lines != [] && Trim(lines[0]) && forall i :: 1 <= i < |lines| ==> lines[i] == ""
    ensures RStrip(Join(lines, '\n')) == lines[0]
  {
    if |lines| == 1 {
      StripTrim(lines[0]);
    } else {
      var init := lines[..|lines| - 1];
      JoinedPadded(init);
      JoinMore(init, "", '\n');
      assert lines == init + [""] && Join(init, '\n') + "\n" + "" == Join(init, '\n') + "\n";
      RStripNewline(Join(init, '\n'));
    }
  }

  lemma {:induction false} PaddedMore(o: Opt)
    requires Padded(o)
    ensures Padded(o.(lines := o.lines + [""])) && Finished(o.(lines := o.lines + [""])) == Finished(o) == o.lines[0]
  {
    JoinedPadded(o.lines);
    JoinedPadded(o.lines + [""]);
  }

  lemma {:induction false} OwnPadded(group: string, o: seq<Opt>)
    requires o != [] && AllPadded(o)
    ensures var n := |o| - 1; var w := o[n := o[n].(lines := o[n].lines + [""])];
            AllPadded(w) && Own(group, w) == Own(group, o)
  {
    PaddedMore(o[|o| - 1]);
  }

  lemma {:induction false} OwnMore(group: string, options: seq<Opt>, k: string, v: string)
    requires AllPadded(options) && Trim(v)
    ensures AllPadded(options + [Opt(k, [v])])
    ensures Own(group, options + [Opt(k, [v])]) == Own(group, options) + [Entry(group, k, v)]
  {
    JoinedPadded([v]);
  }

  // ----- The two readers keep in step -----

  function Flat(sections: seq<Section>): seq<Entry> {
    if sections == [] then []
    else Flat(sections[..|sections| - 1]) + Own(sections[|sections| - 1].name, sections[|sections| - 1].options)
  }

  /** The entries outside the defaults. */
  function Others(es: seq<Entry>): seq<Entry> {
    if es == [] then [] else Others(es[..|es| - 1]) + if es[|es| - 1].group == DEFAULT then [] else [es[|es| - 1]]
  }

  ghost predicate NoDefaults(es: seq<Entry>) { forall i :: 0 <= i < |es| ==> es[i].group != DEFAULT }

  lemma {:induction false} OthersAll(es: seq<Entry>)
    requires NoDefaults(es)
    ensures Others(es) == es
  {
    if es != [] {
      var init, last := es[..|es| - 1], es[|es| - 1];
      assert es == init + [last];
      OthersMore(init, last);
      OthersAll(init);
    }
  }

  lemma {:induction false} OthersMore(es: seq<Entry>, e: Entry)
    ensures Others(es + [e]) == Others(es) + if e.group == DEFAULT then [] else [e]
    ensures NoDefaults(es + [e]) <==> NoDefaults(es) && e.group != DEFAULT
  {
    assert (es + [e])[..|es|] == es;
    assert NoDefaults(es + [e]) ==> (es + [e])[|es|].group != DEFAULT;
    if NoDefaults(es + [e]) {
      forall i | 0 <= i < |es| ensures es[i].group != DEFAULT { assert (es + [e])[i] == es[i]; }
    }
  }

  ghost predicate Tidy(sections: seq<Section>) {
    forall i :: 0 <= i < |sections| ==> AllPadded(sections[i].options) && sections[i].name != DEFAULT
  }

  ghost predicate InStep(p: Parser, s: KeyFile) {
    && Valid(p) && p.indent == 0 && Tidy(p.sections) && AllPadded(p.defaults)
    && s.group == (match p.cursect
                   case Nowhere => None
                   case Defaults => Some(DEFAULT)
                   case Last => Some(p.sections[|p.sections| - 1].name))
    && Others(s.entries) == Flat(p.sections)
    && (p.defaults == [] <==> NoDefaults(s.entries))
  }

  /** Changing the options of the last section changes the tail of the entries. */
  lemma {:induction false} FlatLast(sections: seq<Section>, options: seq<Opt>)
    requires sections != []
    ensures var n := |sections| - 1;
            Flat(sections[n := sections[n].(options := options)])
                == Flat(sections[..n]) + Own(sections[n].name, options)
  {
    var n := |sections| - 1;
    assert sections[n := sections[n].(options := options)][..n] == sections[..n];
  }

  lemma {:induction false} BlankLast(p: Parser, s: KeyFile)
    requires InStep(p, s) && p.optname && p.cursect == Last
    ensures Flat(Continued(p, "").sections) == Flat(p.sections) && Tidy(Continued(p, "").sections)
  {
    var n := |p.sections| - 1;
    OwnPadded(p.sections[n].name, p.sections[n].options);
    FlatLast(p.sections, Current(Continued(p, "")));
    assert p.sections[n := p.sections[n].(options := Current(Continued(p, "")))] == Continued(p, "").sections;
  }

  lemma {:induction false} BlankInStep(p: Parser, s: KeyFile)
    requires InStep(p, s) && p.optname
    ensures InStep(Continued(p, ""), s)
  {
    if p.cursect == Last {
      BlankLast(p, s);
    } else {
      OwnPadded(DEFAULT, p.defaults);
    }
  }

  lemma {:induction false} HeaderInStep(p: Parser, s: KeyFile, name: string)
    requires InStep(p, s) && OpenSection(p, name).Some?
    ensures InStep(OpenSection(p, name).value, s.(group := Some(name)))
  {
    if name != DEFAULT {
      var more := p.sections + [Section(name, [])];
      assert more[..|p.sections|] == p.sections;
      assert Flat(more) == Flat(p.sections) + [];
    }
  }

  lemma {:induction false} PairLast(p: Parser, s: KeyFile, o: Opt, e: Entry)
    requires InStep(p, s) && p.cursect == Last && Trim(e.value) && e.group == s.group.value
    requires o == Opt(e.key, [e.value])
    ensures var q := WithCurrent(p, Current(p) + [o]);
            Tidy(q.sections) && Flat(q.sections) == Flat(p.sections) + [e]
  {
    var n := |p.sections| - 1;
    OwnMore(p.sections[n].name, p.sections[n].options, e.key, e.value);
    FlatLast(p.sections, p.sections[n].options + [o]);
  }

  lemma {:induction false} PairInStep(p: Parser, s: KeyFile, k: string, v: string)
    requires InStep(p, s) && p.cursect != Nowhere && Trim(v)
    ensures InStep(WithCurrent(p, Current(p) + [Opt(k, [v])]).(optname := true),
                   s.(entries := s.entries + [Entry(s.group.value, k, v)]))
  {
    var e := Entry(s.group.value, k, v);
    OthersMore(s.entries, e);
    if p.cursect == Last {
      PairLast(p, s, Opt(k, [v]), e);
    } else {
      OwnMore(DEFAULT, p.defaults, k, v);
    }
  }

  lemma {:induction false} StepInStep(p: Parser, s: KeyFile, l: string)
    requires InStep(p, s) && LineOk(l) && ConfigStep(p, l).Some?
    ensures KeyFileStep(s, l).Some? && InStep(ConfigStep(p, l).value, KeyFileStep(s, l).value)
  {
    ConfigKind(p, l);
    KeyFileKind(s, l);
    match KindOf(l)
    case Blank => if p.optname { BlankInStep(p, s); }
    case Comment =>
    case Header(name) => HeaderInStep(p, s, name);
    case Pair(k, v) =>
      EntryLine(l);
      PairInStep(p, s, k, v);
  }

  lemma {:induction false} RunInStep(lines: seq<string>)
    requires (forall i :: 0 <= i < |lines| ==> LineOk(lines[i])) && ConfigRun(lines).Some?
    ensures KeyFileRun(lines).Some? && InStep(ConfigRun(lines).value, KeyFileRun(lines).value)
  {
    if lines == [] {
    } else {
      var init := lines[..|lines| - 1];
      RunInStep(init);
      StepInStep(ConfigRun(init).value, KeyFileRun(init).value, lines[|lines| - 1]);
    }
  }

  // ----- What the sections show -----

  lemma {:induction false} ViewsPlain(sections: seq<Section>)
    ensures Views(sections, []) == Flat(sections)
  {
    if sections != [] {
      var s := sections[|sections| - 1];
      ViewsPlain(sections[..|sections| - 1]);
      assert View(s, []) == Own(s.name, s.options);
    }
  }

  lemma {:induction false} ViewsNamed(sections: seq<Section>, defaults: seq<Opt>)
    requires Tidy(sections)
    ensures NoDefaults(Views(sections, defaults))
  {
    if sections != [] {
      ViewsNamed(sections[..|sections| - 1], defaults);
      assert NoDefaults(View(sections[|sections| - 1], defaults));
    }
  }

  /** On a canonical text that configparser accepts, the key-file reader accepts too, and the two read the same
      sequence of (group, key, value) exactly when no entry stands in a group named DEFAULT. */
  lemma {:induction false} ReadersAgree(text: string)
    requires Canonical(text) && ConfigEntries(text).Some?
    ensures KeyFileEntries(text).Some?
    ensures ConfigEntries(text) == KeyFileEntries(text) <==> NoDefaults(KeyFileEntries(text).value)
  {
    var lines := StreamLines(text);
    SameLines(text);
    RunInStep(lines);
    var p, s := ConfigRun(lines).value, KeyFileRun(lines).value;
    if NoDefaults(s.entries) {
      OthersAll(s.entries);
      ViewsPlain(p.sections);
    } else {
      ViewsNamed(p.sections, p.defaults);
    }
  }

  ghost predicate NoDefaultHeader(lines: seq<string>) {
    forall i :: 0 <= i < |lines| ==> LineOk(lines[i]) && KindOf(lines[i]) != Header(DEFAULT)
  }

  lemma {:induction false} RunWithoutDefault(lines: seq<string>)
    requires NoDefaultHeader(lines) && KeyFileRun(lines).Some?
    ensures KeyFileRun(lines).value.group != Some(DEFAULT) && NoDefaults(KeyFileRun(lines).value.entries)
  {
    if lines != [] {
      var init := lines[..|lines| - 1];
      RunWithoutDefault(init);
      KeyFileKind(KeyFileRun(init).value, lines[|lines| - 1]);
    }
  }

  /** Without a group named DEFAULT the readers always agree. */
  lemma {:induction false} ReadersAgreeWithoutDefault(text: string)
    requires Canonical(text) && ConfigEntries(text).Some? && NoDefaultHeader(StreamLines(text))
    ensures ConfigEntries(text) == KeyFileEntries(text)
  {
    ReadersAgree(text);
    RunWithoutDefault(StreamLines(text));
  }

  predicate OneLine(l: string) { l != "" && forall i :: 0 <= i < |l| ==> l[i] != '\n' }

  lemma TwoLineParts(a: string, b: string, text: string)
    requires OneLine(a) && OneLine(b) && text == a + "\n" + b
    ensures text[|a|] == '\n' && text[..|a|] == a && text[|a| + 1..] == b && text[|text| - 1] == b[|b| - 1]
    ensures forall i :: 0 <= i < |a| ==> text[i] != '\n'
  {
    assert forall i :: 0 <= i < |a| ==> text[i] == a[i];
  }

  lemma {:induction false} TwoLineSplit(a: string, b: string, text: string)
    requires OneLine(a) && OneLine(b) && text == a + "\n" + b
    ensures Split(text, '\n') == [a, b]
  {
    TwoLineParts(a, b, text);
    FindSpans(text, '\n', |a|);
    SplitOnce(text, |a|);
    FindSpans(b, '\n', |b|);
    SplitOnce(b, |b|);
  }

  lemma {:induction false} TwoLineText(a: string, b: string, text: string)
    requires OneLine(a) && OneLine(b) && text == a + "\n" + b
    ensures Split(Body(text), '\n') == [a, b] && StreamLines(text) == [a, b]
  {
    TwoLineParts(a, b, text);
    assert Body(text) == text;
    TwoLineSplit(a, b, text);
    SameLines(text);
  }

  /** With one they need not: the defaults are no group for configparser. */
  lemma {:induction false} DefaultGroupDiffers()
    ensures exists text :: Canonical(text) && ConfigEntries(text).Some? && ConfigEntries(text) != KeyFileEntries(text)
  {
    var a, b := "[DEFAULT]", "k=v";
    DefaultLines(a, b);
    TwoLineText(a, b, a + "\n" + b);
    DefaultDiffers(a, b, a + "\n" + b);
  }

  lemma {:induction false} DefaultDiffers(a: string, b: string, text: string)
    requires LineOk(a) && LineOk(b) && KindOf(a) == Header(DEFAULT) && KindOf(b) == Pair("k", "v")
    requires Split(Body(text), '\n') == [a, b] && StreamLines(text) == [a, b]
    ensures Canonical(text) && ConfigEntries(text).Some? && ConfigEntries(text) != KeyFileEntries(text)
  {
    TwoLines(a, b);
    var e := Entry(DEFAULT, "k", "v");
    assert KeyFileEntries(text) == Some([e]);
    assert [e][0].group == DEFAULT;
    ReadersAgree(text);
  }

  lemma {:induction false} DefaultLines(a: string, b: string)
    requires a == "[DEFAULT]" && b == "k=v"
    ensures OneLine(a) && OneLine(b)
    ensures LineOk(a) && LineOk(b) && KindOf(a) == Header(DEFAULT) && KindOf(b) == Pair("k", "v")
  {
    assert a[1..|a| - 1] == DEFAULT;
    FindSpans(b, '=', 1);
    assert b[..1] == "k" && b[2..] == "v";
    FindSpans("k", '[', 1);
  }

  lemma RunOne(a: string)
    ensures ConfigRun([a]) == ConfigStep(Parser([], [], Nowhere, false, 0), a)
    ensures KeyFileRun([a]) == KeyFileStep(KeyFile(None, []), a)
  {
    assert [a][..0] == [];
    if ConfigStep(Parser([], [], Nowhere, false, 0), a).Some? { StepValid(Parser([], [], Nowhere, false, 0), a); }
  }

  lemma {:induction false} TwoLines(a: string, b: string)
    requires LineOk(a) && LineOk(b) && KindOf(a) == Header(DEFAULT) && KindOf(b) == Pair("k", "v")
    ensures ConfigRun([a, b]).Some? && KeyFileRun([a, b]).Some?
    ensures KeyFileRun([a, b]).value.entries == [Entry(DEFAULT, "k", "v")]
  {
    var p, s := Parser([], [], Nowhere, false, 0), KeyFile(None, []);
    RunOne(a);
    ConfigKind(p, a);
    KeyFileKind(s, a);
    assert KeyFileRun([a]) == Some(KeyFile(Some(DEFAULT), []));
    RunTwo(a, b);
    ConfigKind(ConfigRun([a]).value, b);
    KeyFileKind(KeyFileRun([a]).value, b);
  }

  lemma RunTwo(a: string, b: string)
    requires ConfigRun([a]).Some? && KeyFileRun([a]).Some?
    ensures ConfigRun([a, b]) == ConfigStep(ConfigRun([a]).value, b)
    ensures KeyFileRun([a, b]) == KeyFileStep(KeyFileRun([a]).value, b)
  {
    assert [a, b][..1] == [a];
  }
}
