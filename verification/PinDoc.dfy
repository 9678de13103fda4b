/** JSON documents in the layout of `json.dumps(indent=2)`, and the meaning of the targeted edits:
    each changes the value of one key and nothing else (ci/repin-snitchwatch.py). */
module PinDoc {
  import opened Options
  import opened Strings
  import opened PinText

  /** A value as it is spelled: strings without their quotes, containers by their inner lines. */
  datatype Value =
    | Str(raw: string)
    | Scalar(raw: string)
    | Table(lines: seq<string>)
    | Items(lines: seq<string>)

  datatype Member = Member(key: string, value: Value)

  type Doc = seq<Member>

  predicate NoQuote(s: string) { forall i :: 0 <= i < |s| ==> s[i] != '"' }

  ghost predicate WellSpelled(v: Value) {
    match v
    case Str(raw) => Flat(raw)
    case Scalar(raw) => Flat(raw) && raw != "" && raw[0] != '"' && raw[|raw| - 1] !in {',', '{', '['}
    case Table(lines) => AllDeep(lines)
    case Items(lines) => AllDeep(lines)
  }

  ghost predicate WellFormed(d: Doc) {
    && d != []
    && (forall i :: 0 <= i < |d| ==> Flat(d[i].key) && NoQuote(d[i].key) && WellSpelled(d[i].value))
    && forall i, j :: 0 <= i < j < |d| ==> d[i].key != d[j].key
  }

  // ----- Layout -----

  function Head(key: string): string { "  \"" + key + "\": " }

  function Lines(m: Member, comma: string): seq<string> {
    match m.value
    case Str(raw) => [Head(m.key) + ("\"" + (raw + ("\"" + comma)))]
    case Scalar(raw) => [Head(m.key) + (raw + comma)]
    case Table(lines) => [Head(m.key) + "{"] + lines + ["  }" + comma]
    case Items(lines) => [Head(m.key) + "["] + lines + ["  ]" + comma]
  }

  function Before(d: Doc): seq<string> {
    if d == [] then ["{"] else Before(d[..|d| - 1]) + Lines(d[|d| - 1], ",")
  }

  function After(d: Doc): seq<string> {
    if d == [] then ["}", ""] else Lines(d[0], if |d| == 1 then "" else ",") + After(d[1..])
  }

  function DocLines(d: Doc): seq<string> { ["{"] + After(d) }

  function Print(d: Doc): Text { Joined(DocLines(d)) }

  lemma {:induction false} SplitAfter(d: Doc, i: nat)
    requires i < |d|
    ensures DocLines(d) == Before(d[..i]) + After(d[i..])
  {
    if i == 0 {
      assert d[0..] == d;
    } else {
      SplitAfter(d, i - 1);
      assert d[..i][..i - 1] == d[..i - 1];
      assert d[i - 1..][1..] == d[i..] && d[i - 1..][0] == d[i - 1];
      var m := Lines(d[i - 1], ",");
      assert Before(d[..i - 1]) + (m + After(d[i..])) == (Before(d[..i - 1]) + m) + After(d[i..]);
    }
  }

  function Comma(d: Doc, i: nat): string { if i + 1 == |d| then "" else "," }

  /** The layout around one member does not depend on it. */
  lemma {:induction false} SplitAt(d: Doc, i: nat)
    requires i < |d|
    ensures DocLines(d) == Before(d[..i]) + (Lines(d[i], Comma(d, i)) + After(d[i + 1..]))
  {
    SplitAfter(d, i);
    assert d[i..][0] == d[i] && d[i..][1..] == d[i + 1..];
  }

  function Update(d: Doc, i: nat, v: Value): Doc
    requires i < |d|
  {
    d[i := Member(d[i].key, v)]
  }

  lemma {:induction false} SplitUpdated(d: Doc, i: nat, v: Value)
    requires i < |d|
    ensures DocLines(Update(d, i, v)) == Before(d[..i]) + (Lines(Member(d[i].key, v), Comma(d, i)) + After(d[i + 1..]))
  {
    var e := Update(d, i, v);
    SplitAt(e, i);
    assert e[..i] == d[..i] && e[i + 1..] == d[i + 1..];
  }

  // ----- Which lines an edit can match -----

  /** A line from the layout of some other member, or a bracket. */
  ghost predicate Foreign(l: string, d: Doc, i: nat)
    requires i < |d|
  {
    l == "{" || l == "}" || l == ""
        || exists j, comma :: 0 <= j < |d| && j != i && (comma == "" || comma == ",") && l in Lines(d[j], comma)
  }

  lemma {:induction false} BeforeForeign(d: Doc, i: nat, n: nat, l: string)
    requires n <= i < |d| && l in Before(d[..n])
    ensures Foreign(l, d, i)
  {
    if n > 0 {
      assert d[..n][..n - 1] == d[..n - 1];
      if l in Lines(d[n - 1], ",") {
        assert 0 <= n - 1 < |d| && n - 1 != i;
      } else {
        BeforeForeign(d, i, n - 1, l);
      }
    }
  }

  lemma {:induction false} AfterForeign(d: Doc, i: nat, n: nat, l: string)
    requires i < n <= |d| && l in After(d[n..])
    ensures Foreign(l, d, i)
    decreases |d| - n
  {
    if n == |d| {
      BracketForeign(d, i, l);
    } else {
      var comma := if n + 1 == |d| then "" else ",";
      AfterStep(d, n, comma);
      if l in Lines(d[n], comma) {
        OtherMember(d, i, n, comma, l);
      } else {
        AfterForeign(d, i, n + 1, l);
      }
    }
  }

  lemma BracketForeign(d: Doc, i: nat, l: string)
    requires i < |d| && l in After(d[|d|..])
    ensures Foreign(l, d, i)
  {
    assert d[|d|..] == [];
  }

  lemma OtherMember(d: Doc, i: nat, j: nat, comma: string, l: string)
    requires i < |d| && j < |d| && j != i && (comma == "" || comma == ",") && l in Lines(d[j], comma)
    ensures Foreign(l, d, i)
  {
  }

  lemma AfterStep(d: Doc, n: nat, comma: string)
    requires n < |d| && comma == if n + 1 == |d| then "" else ","
    ensures After(d[n..]) == Lines(d[n], comma) + After(d[n + 1..])
  {
    assert d[n..][0] == d[n] && d[n..][1..] == d[n + 1..];
  }

  lemma {:induction false} FindKey(k: string, rest: string)
    requires NoQuote(k)
    ensures Find(k + ("\"" + rest), '"') == |k|
  {
    if k == "" {
      assert k + ("\"" + rest) == "\"" + rest;
    } else {
      assert (k + ("\"" + rest))[1..] == k[1..] + ("\"" + rest);
      FindKey(k[1..], rest);
    }
  }

  /** The key can be read back from a line that starts with it. */
  lemma {:induction false} HeadDeterminesKey(l: string, k: string)
    requires NoQuote(k) && Head(k) <= l
    ensures Find(l[3..], '"') == |k| && l[3..3 + |k|] == k
  {
    var rest := l[|k| + 4..];
    assert l == Head(k) + l[|Head(k)|..];
    assert l[3..] == k + ("\"" + rest);
    FindKey(k, rest);
  }

  lemma {:induction false} SameHeadSameKey(l: string, k: string, m: string)
    requires NoQuote(k) && NoQuote(m) && Head(k) <= l && Head(m) <= l
    ensures k == m
  {
    HeadDeterminesKey(l, k);
    HeadDeterminesKey(l, m);
  }

  lemma {:induction false} DeepNotHead(k: string, l: string)
    requires Deep(l)
    ensures !(Head(k) <= l)
  {
    assert Head(k)[2] == '"' && (l != "" ==> l[2] == l[..4][2]);
  }

  /** A line of one member starts with another key's head never. */
  lemma {:induction false} LinesHead(m: Member, comma: string, k: string, l: string)
    requires NoQuote(k) && NoQuote(m.key) && WellSpelled(m.value) && (comma == "" || comma == ",")
    requires l in Lines(m, comma) && Head(k) <= l
    ensures m.key == k && l == Lines(m, comma)[0]
  {
    if m.value.Table? || m.value.Items? {
      forall x | x in m.value.lines ensures !(Head(k) <= x) { DeepNotHead(k, x); }
      assert !(Head(k) <= "  }" + comma) && !(Head(k) <= "  ]" + comma) by { assert Head(k)[2] == '"'; }
    }
    assert l == Lines(m, comma)[0] && Head(m.key) <= l;
    SameHeadSameKey(l, k, m.key);
  }

  lemma {:induction false} ForeignHead(d: Doc, i: nat, l: string)
    requires WellFormed(d) && i < |d| && Foreign(l, d, i)
    ensures !(Head(d[i].key) <= l)
  {
    if Head(d[i].key) <= l {
      assert |l| >= 5;
      var j, comma :| 0 <= j < |d| && j != i && (comma == "" || comma == ",") && l in Lines(d[j], comma);
      LinesHead(d[j], comma, d[i].key, l);
      assert false;
    }
  }

  lemma {:induction false} LinesFlat(m: Member, comma: string)
    requires Flat(m.key) && WellSpelled(m.value) && (comma == "" || comma == ",")
    ensures AllFlat(Lines(m, comma))
  {
    match m.value
    case Table(lines) => assert forall l :: l in lines ==> Deep(l);
    case Items(lines) => assert forall l :: l in lines ==> Deep(l);
    case _ =>
  }

  lemma {:induction false} ForeignFlat(d: Doc, i: nat, l: string)
    requires WellFormed(d) && i < |d| && Foreign(l, d, i)
    ensures Flat(l)
  {
    if l != "{" && l != "}" && l != "" {
      var j, comma :| 0 <= j < |d| && j != i && (comma == "" || comma == ",") && l in Lines(d[j], comma);
      LinesFlat(d[j], comma);
    }
  }

  /** No line around a member can be taken for it. */
  lemma {:induction false} Surroundings(d: Doc, i: nat)
    requires WellFormed(d) && i < |d|
    ensures AllFlat(Before(d[..i])) && AllFlat(After(d[i + 1..]))
    ensures NoneStarts(Before(d[..i]), Head(d[i].key)) && NoneStarts(After(d[i + 1..]), Head(d[i].key))
  {
    forall l | l in Before(d[..i]) ensures Flat(l) && !(Head(d[i].key) <= l) {
      BeforeForeign(d, i, i, l);
      ForeignFlat(d, i, l);
      ForeignHead(d, i, l);
    }
    forall l | l in After(d[i + 1..]) ensures Flat(l) && !(Head(d[i].key) <= l) {
      AfterForeign(d, i, i + 1, l);
      ForeignFlat(d, i, l);
      ForeignHead(d, i, l);
    }
  }

  // ----- The edits -----

  lemma {:induction false} StringLine(key: string, raw: string, comma: string)
    ensures Lines(Member(key, Str(raw)), comma) == [KeyPrefix("  ", key) + ((raw + ['"']) + comma)]
    ensures KeyPrefix("  ", key) == Head(key) + "\""
  {
    assert Head(key) + ("\"" + (raw + ("\"" + comma))) == KeyPrefix("  ", key) + ((raw + ['"']) + comma);
  }

  lemma {:induction false} FindQuote(raw: string)
    requires NoQuote(raw)
    ensures Find(raw + ['"'], '"') == |raw|
  {
    FindKey(raw, "");
    assert raw + ("\"" + "") == raw + ['"'];
  }

  lemma {:induction false} SetKeyLine(a: seq<string>, b: seq<string>, key: string, was: string, comma: string,
                                      value: string)
    requires AllFlat(a) && AllFlat(b) && Flat(key) && Flat(was) && NoQuote(was) && (comma == "" || comma == ",")
    requires NoneStarts(a, Head(key)) && NoneStarts(b, Head(key))
    ensures SetKey(Joined(a + (Lines(Member(key, Str(was)), comma) + b)), key, value, "  ")
         == Some(Joined(a + (Lines(Member(key, Str(value)), comma) + b)))
  {
    var prefix := KeyPrefix("  ", key);
    StringLine(key, was, comma);
    StringLine(key, value, comma);
    FindQuote(was);
    forall l | l in a || l in b ensures !(prefix <= l) { PrefixShorter(Head(key), "\"", l); }
    assert Flat(prefix);
    assert Flat(prefix + ((was + ['"']) + comma));
    SubOnce(a, prefix, was, '"', comma, b, value);
  }

  /** `set_key` on a top-level string: that key gets the value, every other key keeps its own. */
  lemma {:induction false} SetKeyUpdates(d: Doc, i: nat, value: string)
    requires WellFormed(d) && i < |d| && d[i].value.Str? && NoQuote(d[i].value.raw)
    ensures SetKey(Print(d), d[i].key, value, "  ") == Some(Print(Update(d, i, Str(value))))
  {
    SplitAt(d, i);
    SplitUpdated(d, i, Str(value));
    Surroundings(d, i);
    assert d[i] == Member(d[i].key, Str(d[i].value.raw));
    SetKeyLine(Before(d[..i]), After(d[i + 1..]), d[i].key, d[i].value.raw, Comma(d, i), value);
  }

  lemma PrefixShorter(a: string, b: string, l: string)
    ensures a + b <= l ==> a <= l
  {
    if a + b <= l { assert l[..|a|] == (a + b)[..|a|]; }
  }

  lemma {:induction false} AfterNonempty(d: Doc)
    ensures After(d) != []
  {
  }

  lemma {:induction false} HeaderAbsent(lines: seq<string>, key: string, open_: string)
    requires NoneStarts(lines, Head(key))
    ensures Head(key) + open_ !in lines
  {
  }

  lemma {:induction false} BlockEdit(a: seq<string>, b: seq<string>, key: string, open_: string, closing: string,
                                     comma: string, inner: seq<string>, lines: seq<string>)
    requires AllFlat(a) && AllFlat(b) && b != [] && Flat(key) && Flat(open_) && Closing(closing)
    requires (comma == "" || comma == ",")
    requires NoneStarts(a, Head(key)) && NoneStarts(b, Head(key)) && AllDeep(inner) && lines != []
    ensures Once(SubBlock(Joined(a + (([Head(key) + open_] + inner + [closing[1..] + comma]) + b)),
                          (Head(key) + open_) + "\n", closing, Joined(lines)))
         == Some(Joined(a + (([Head(key) + open_] + lines + [closing[1..] + comma]) + b)))
  {
    HeaderAbsent(a, key, open_);
    HeaderAbsent(b, key, open_);
    BlockOnce(a, Head(key) + open_, inner, closing, comma, b, lines);
  }

  /** `set_source_files`: the table gets the new lines, every other key keeps its value. */
  lemma {:induction false} SetTableUpdates(d: Doc, i: nat, lines: seq<string>)
    requires WellFormed(d) && i < |d| && d[i].value.Table? && lines != []
    ensures SetTable(Print(d), d[i].key, Joined(lines)) == Some(Print(Update(d, i, Table(lines))))
  {
    var key, comma := d[i].key, Comma(d, i);
    SplitAt(d, i);
    SplitUpdated(d, i, Table(lines));
    Surroundings(d, i);
    AfterNonempty(d[i + 1..]);
    assert TableHeader(key) == Head(key) + "{" && TABLE_END[1..] == "  }";
    BlockEdit(Before(d[..i]), After(d[i + 1..]), key, "{", TABLE_END, comma, d[i].value.lines, lines);
  }

  /** `set_finish_args`: the same for a list. */
  lemma {:induction false} SetListUpdates(d: Doc, i: nat, lines: seq<string>)
    requires WellFormed(d) && i < |d| && d[i].value.Items? && lines != []
    ensures SetList(Print(d), d[i].key, Joined(lines)) == Some(Print(Update(d, i, Items(lines))))
  {
    var key, comma := d[i].key, Comma(d, i);
    SplitAt(d, i);
    SplitUpdated(d, i, Items(lines));
    Surroundings(d, i);
    AfterNonempty(d[i + 1..]);
    assert ListHeader(key) == Head(key) + "[" && LIST_END[1..] == "  ]";
    BlockEdit(Before(d[..i]), After(d[i + 1..]), key, "[", LIST_END, comma, d[i].value.lines, lines);
  }

  // ----- nativeSource -----

  const NATIVE := "\"nativeSource\": {"

  /** `set_native`: within the first block that opens with the native header, set three keys. */
  function SetNative(t: Text, commit: string, tree: string, sub: string): Option<Text> {
    SetInBlock(t, NATIVE + "\n", TABLE_END, commit, tree, sub)
  }

  function SetInBlock(t: Text, header: string, closing: string, commit: string, tree: string,
                      sub: string): Option<Text> {
    match Search(t, header)
    case None => None
    case Some(p) =>
      SearchFits(t, header);
      var start := p + |header|;
      match Search(t[start..], closing)
      case None => None
      case Some(n) =>
        SearchFits(t[start..], closing);
        match SetThree(t[start..][..n], commit, tree, sub)
        case None => None
        case Some(inner) => Some(t[..start] + inner + t[start..][n..])
  }

  function SetThree(t: Text, commit: string, tree: string, sub: string): Option<Text> {
    match SetKey(t, "commit", commit, "    ")
    case None => None
    case Some(a) =>
      match SetKey(a, "tree", tree, "    ")
      case None => None
      case Some(b) => SetKey(b, "submoduleCommit", sub, "    ")
  }

  /** A table whose entries are all strings. */
  type Entries = seq<(string, string)>

  function EntryLine(e: (string, string), comma: string): string { KeyPrefix("    ", e.0) + ((e.1 + ['"']) + comma) }

  function TableLines(es: Entries): seq<string> {
    seq(|es|, i requires 0 <= i < |es| => EntryLine(es[i], if i + 1 == |es| then "" else ","))
  }

  ghost predicate WellSpelledEntries(es: Entries) {
    && es != []
    && (forall i :: 0 <= i < |es| ==> Flat(es[i].0) && NoQuote(es[i].0) && Flat(es[i].1) && NoQuote(es[i].1))
    && forall i, j :: 0 <= i < j < |es| ==> es[i].0 != es[j].0
  }

  lemma {:induction false} EntryKey(l: string, k: string)
    requires NoQuote(k) && KeyPrefix("    ", k) <= l
    ensures Find(l[5..], '"') == |k| && l[5..5 + |k|] == k
  {
    var p := KeyPrefix("    ", k);
    var rest := l[|k| + 6..];
    assert l == p + l[|p|..];
    assert l[5..] == k + ("\"" + rest);
    FindKey(k, rest);
  }

  lemma {:induction false} EntryLinesDiffer(e: (string, string), comma: string, k: string)
    requires NoQuote(e.0) && NoQuote(k) && e.0 != k
    ensures !(KeyPrefix("    ", k) <= EntryLine(e, comma))
  {
    var l := EntryLine(e, comma);
    EntryKey(l, e.0);
    if KeyPrefix("    ", k) <= l {
      EntryKey(l, k);
      assert false;
    }
  }

  lemma {:induction false} EntryDeep(e: (string, string), comma: string)
    requires Flat(e.0) && Flat(e.1) && Flat(comma)
    ensures Deep(EntryLine(e, comma))
  {
    var l := EntryLine(e, comma);
    assert l[..4] == KeyPrefix("    ", e.0)[..4] == "    ";
  }

  lemma {:induction false} TableLinesDeep(es: Entries)
    requires WellSpelledEntries(es)
    ensures AllDeep(TableLines(es)) && AllFlat(TableLines(es))
  {
    forall l | l in TableLines(es) ensures Deep(l) {
      var i :| 0 <= i < |es| && TableLines(es)[i] == l;
      EntryDeep(es[i], if i + 1 == |es| then "" else ",");
    }
  }

  lemma {:induction false} OtherEntriesMiss(es: Entries, i: nat, l: string)
    requires WellSpelledEntries(es) && i < |es| && (l in TableLines(es)[..i] || l in TableLines(es)[i + 1..])
    ensures !(KeyPrefix("    ", es[i].0) <= l)
  {
    var lines := TableLines(es);
    var j :| 0 <= j < |lines| && j != i && lines[j] == l;
    EntryLinesDiffer(es[j], if j + 1 == |es| then "" else ",", es[i].0);
  }

  lemma {:induction false} TableLinesAround(es: Entries, i: nat, value: string)
    requires i < |es|
    ensures
      var lines, comma := TableLines(es), if i + 1 == |es| then "" else ",";
      && lines == lines[..i] + ([EntryLine(es[i], comma)] + lines[i + 1..])
      && TableLines(es[i := (es[i].0, value)]) == lines[..i] + ([EntryLine((es[i].0, value), comma)] + lines[i + 1..])
  {
  }

  /** `set_key` inside a table of strings. */
  lemma {:induction false} SetEntryUpdates(es: Entries, i: nat, value: string)
    requires WellSpelledEntries(es) && i < |es|
    ensures SetKey(Joined(TableLines(es)), es[i].0, value, "    ")
         == Some(Joined(TableLines(es[i := (es[i].0, value)])))
  {
    var lines, prefix := TableLines(es), KeyPrefix("    ", es[i].0);
    TableLinesAround(es, i, value);
    TableLinesDeep(es);
    FindQuote(es[i].1);
    forall l | l in lines[..i] || l in lines[i + 1..] ensures !(prefix <= l) && Flat(l) {
      OtherEntriesMiss(es, i, l);
      assert l in lines;
    }
    assert lines[i] in lines;
    SubOnce(lines[..i], prefix, es[i].1, '"', if i + 1 == |es| then "" else ",", lines[i + 1..], value);
  }

  /** A table read as a mapping. */
  function AsMap(es: Entries): map<string, string> {
    if es == [] then map[] else AsMap(es[..|es| - 1])[es[|es| - 1].0 := es[|es| - 1].1]
  }

  function SetEntry(es: Entries, key: string, value: string): Entries {
    seq(|es|, i requires 0 <= i < |es| => if es[i].0 == key then (key, value) else es[i])
  }

  ghost predicate HasKey(es: Entries, key: string) { exists i :: 0 <= i < |es| && es[i].0 == key }

  predicate Spelled(v: string) { Flat(v) && NoQuote(v) }

  ghost predicate SameKeys(es: Entries, fs: Entries) {
    |es| == |fs| && forall j :: 0 <= j < |es| ==> es[j].0 == fs[j].0
  }

  lemma {:induction false} SetEntryKeeps(es: Entries, key: string, value: string)
    requires WellSpelledEntries(es) && Spelled(value)
    ensures WellSpelledEntries(SetEntry(es, key, value)) && SameKeys(es, SetEntry(es, key, value))
  {
  }

  /** Setting a present key of a table: the text edit is the table edit. */
  lemma {:induction false} SetEntryEdits(es: Entries, key: string, value: string)
    requires WellSpelledEntries(es) && HasKey(es, key)
    ensures SetKey(Joined(TableLines(es)), key, value, "    ") == Some(Joined(TableLines(SetEntry(es, key, value))))
  {
    var i :| 0 <= i < |es| && es[i].0 == key;
    assert SetEntry(es, key, value) == es[i := (es[i].0, value)];
    SetEntryUpdates(es, i, value);
  }

  function SetTriple(es: Entries, commit: string, tree: string, sub: string): Entries {
    SetEntry(SetEntry(SetEntry(es, "commit", commit), "tree", tree), "submoduleCommit", sub)
  }

  lemma {:induction false} KeyStays(es: Entries, fs: Entries, key: string)
    requires SameKeys(es, fs) && HasKey(es, key)
    ensures HasKey(fs, key)
  {
    var i :| 0 <= i < |es| && es[i].0 == key;
    assert fs[i].0 == key;
  }

  ghost predicate HasTriple(es: Entries) { HasKey(es, "commit") && HasKey(es, "tree") && HasKey(es, "submoduleCommit") }

  lemma {:induction false} SetThreeEdits(es: Entries, commit: string, tree: string, sub: string)
    requires WellSpelledEntries(es) && HasTriple(es) && Spelled(commit) && Spelled(tree) && Spelled(sub)
    ensures SetThree(Joined(TableLines(es)), commit, tree, sub)
         == Some(Joined(TableLines(SetTriple(es, commit, tree, sub))))
    ensures WellSpelledEntries(SetTriple(es, commit, tree, sub)) && SameKeys(es, SetTriple(es, commit, tree, sub))
  {
    var a := SetEntry(es, "commit", commit);
    SetEntryEdits(es, "commit", commit);
    SetEntryKeeps(es, "commit", commit);
    KeyStays(es, a, "tree");
    var b := SetEntry(a, "tree", tree);
    SetEntryEdits(a, "tree", tree);
    SetEntryKeeps(a, "tree", tree);
    KeyStays(es, b, "submoduleCommit");
    SetEntryEdits(b, "submoduleCommit", sub);
    SetEntryKeeps(b, "submoduleCommit", sub);
  }

  // ----- Finding the native block -----

  predicate EndsWith(l: string, s: string) { |l| >= |s| && l[|l| - |s|..] == s }

  lemma {:induction false} SearchPastLine(l: string, t: Text, p: string)
    requires Flat(l) && Flat(p) && !EndsWith(l, p)
    ensures Search(l + "\n" + t, p + "\n")
         == match Search(t, p + "\n") { case None => None case Some(n) => Some(|l| + 1 + n) }
    decreases |l|
  {
    var s := l + "\n" + t;
    HeaderLine(l, t, p);
    assert l[|l| - |l|..] == l;
    if l == "" {
      assert s == "\n" + t && s[1..] == t;
    } else {
      assert s[1..] == l[1..] + "\n" + t;
      assert EndsWith(l[1..], p) ==> EndsWith(l, p);
      SearchPastLine(l[1..], t, p);
    }
  }

  lemma WholeEnd(l: string, p: string)
    ensures EndsWith(l, p) && |l| == |p| ==> l == p
  {
    if |l| == |p| { assert l[|l| - |p|..] == l; }
  }

  lemma {:induction false} SearchInLine(l: string, t: Text, p: string)
    requires Flat(l) && Flat(p) && p != "" && EndsWith(l, p)
    ensures Search(l + "\n" + t, p + "\n") == Some(|l| - |p|)
    decreases |l|
  {
    var s := l + "\n" + t;
    HeaderLine(l, t, p);
    WholeEnd(l, p);
    if l == p {
      assert p + "\n" <= s;
    } else {
      assert s[1..] == l[1..] + "\n" + t;
      assert EndsWith(l[1..], p);
      SearchInLine(l[1..], t, p);
    }
  }

  lemma {:induction false} SearchPastLines(before: seq<string>, rest: seq<string>, p: string)
    requires AllFlat(before) && Flat(p) && rest != [] && forall l :: l in before ==> !EndsWith(l, p)
    ensures Search(Joined(before + rest), p + "\n") ==
      match Search(Joined(rest), p + "\n") { case None => None case Some(n) => Some(Offset(before) + n) }
    decreases |before|
  {
    if before == [] {
      assert before + rest == rest;
    } else {
      var l, tail := before[0], before[1..];
      assert l in before && forall x :: x in tail ==> x in before;
      assert (before + rest)[0] == l && (before + rest)[1..] == tail + rest;
      SearchPastLines(tail, rest, p);
      SearchPastLine(l, Joined(tail + rest), p);
    }
  }

  /** Characters of the given lines with their newlines. */
  function Offset(lines: seq<string>): nat { if lines == [] then 0 else |lines[0]| + 1 + Offset(lines[1..]) }

  lemma {:induction false} OffsetSplits(before: seq<string>, rest: seq<string>)
    requires rest != []
    ensures Offset(before) <= |Joined(before + rest)| && Joined(before + rest)[Offset(before)..] == Joined(rest)
    decreases |before|
  {
    if before == [] {
      assert before + rest == rest;
    } else {
      assert (before + rest)[0] == before[0] && (before + rest)[1..] == before[1..] + rest;
      OffsetSplits(before[1..], rest);
    }
  }

  /** No line before the member ends like its header (a nested table of the same name would). */
  ghost predicate FirstOfItsName(d: Doc, i: nat)
    requires i < |d|
  {
    forall l :: l in Before(d[..i]) ==> !EndsWith(l, NATIVE)
  }

  lemma {:induction false} NativeHeader()
    ensures Head("nativeSource") + "{" == "  " + NATIVE && Flat(NATIVE)
    ensures EndsWith("  " + NATIVE, NATIVE) && Flat("  " + NATIVE)
  {
  }

  lemma {:induction false} NativeFound(a: seq<string>, inner: seq<string>, comma: string, b: seq<string>)
    requires AllFlat(a) && AllDeep(inner) && b != [] && (forall l :: l in a ==> !EndsWith(l, NATIVE))
    ensures
      var t := Joined(a + (["  " + NATIVE] + inner + ["  }" + comma] + b));
      var start := Offset(a) + 2 + |NATIVE| + 1;
      && Search(t, NATIVE + "\n") == Some(Offset(a) + 2)
      && start <= |t| && t[start..] == Joined(inner) + (TABLE_END + (comma + "\n" + Joined(b)))
      && t[..start] == t[..Offset(a)] + ("  " + NATIVE + "\n")
      && Search(t[start..], TABLE_END) == Some(|Joined(inner)|)
  {
    NativeHeader();
    var rest := ["  " + NATIVE] + inner + ["  }" + comma] + b;
    var t := Joined(a + rest);
    assert TABLE_END[1..] == "  }";
    BlockText("  " + NATIVE, inner, TABLE_END, comma, b);
    SearchPastLines(a, rest, NATIVE);
    var tail := Joined(inner) + (TABLE_END + (comma + "\n" + Joined(b)));
    assert Joined(rest) == ("  " + NATIVE) + "\n" + tail;
    SearchInLine("  " + NATIVE, tail, NATIVE);
    OffsetSplits(a, rest);
    assert t == t[..Offset(a)] + Joined(rest);
    assert t[Offset(a) + |"  " + NATIVE| + 1..] == tail;
    SearchClosing(inner, TABLE_END, comma + "\n" + Joined(b));
  }

  lemma {:induction false} SamePrefix(a: seq<string>, r: seq<string>, s: seq<string>)
    requires r != [] && s != []
    ensures Offset(a) <= |Joined(a + r)| && Offset(a) <= |Joined(a + s)|
    ensures Joined(a + r)[..Offset(a)] == Joined(a + s)[..Offset(a)]
    decreases |a|
  {
    OffsetSplits(a, r);
    OffsetSplits(a, s);
    if a != [] {
      assert (a + r)[0] == a[0] && (a + r)[1..] == a[1..] + r;
      assert (a + s)[0] == a[0] && (a + s)[1..] == a[1..] + s;
      SamePrefix(a[1..], r, s);
    }
  }

  lemma {:induction false} NativeEdit(a: seq<string>, es: Entries, comma: string, b: seq<string>, commit: string,
                                      tree: string, sub: string)
    requires AllFlat(a) && b != [] && (forall l :: l in a ==> !EndsWith(l, NATIVE))
    requires WellSpelledEntries(es) && HasTriple(es) && Spelled(commit) && Spelled(tree) && Spelled(sub)
    ensures SetNative(Joined(a + (["  " + NATIVE] + TableLines(es) + ["  }" + comma] + b)), commit, tree, sub)
         == Some(Joined(a + (["  " + NATIVE] + TableLines(SetTriple(es, commit, tree, sub)) + ["  }" + comma] + b)))
  {
    var fs := SetTriple(es, commit, tree, sub);
    SetThreeEdits(es, commit, tree, sub);
    TableLinesDeep(es);
    TableLinesDeep(fs);
    var r := ["  " + NATIVE] + TableLines(es) + ["  }" + comma] + b;
    var r' := ["  " + NATIVE] + TableLines(fs) + ["  }" + comma] + b;
    NativeFound(a, TableLines(es), comma, b);
    NativeFound(a, TableLines(fs), comma, b);
    SamePrefix(a, r, r');
    Spliced(Joined(a + r), NATIVE + "\n", Offset(a) + 2 + |NATIVE| + 1, Joined(TableLines(es)),
            TABLE_END + (comma + "\n" + Joined(b)), Joined(TableLines(fs)), commit, tree, sub);
    Rejoined(Joined(a + r), Joined(a + r'), Offset(a) + 2 + |NATIVE| + 1,
             Joined(TableLines(fs)), TABLE_END + (comma + "\n" + Joined(b)));
  }

  lemma Rejoined(t: Text, u: Text, start: nat, inner: Text, rest: Text)
    requires start <= |t| && start <= |u| && t[..start] == u[..start] && u[start..] == inner + rest
    ensures u == t[..start] + inner + rest
  {
    assert u == u[..start] + u[start..];
  }

  lemma {:induction false} BlockSpliced(t: Text, header: string, closing: string, start: nat, u: Text, n: nat,
                                        edited: Text, commit: string, tree: string, sub: string)
    requires Search(t, header) == Some(start - |header|) && |header| <= start <= |t| && u == t[start..]
    requires Search(u, closing) == Some(n) && n <= |u| && SetThree(u[..n], commit, tree, sub) == Some(edited)
    ensures SetInBlock(t, header, closing, commit, tree, sub) == Some(t[..start] + edited + u[n..])
  {
  }

  lemma {:induction false} Spliced(t: Text, header: string, start: nat, inner: Text, rest: Text, edited: Text,
                                   commit: string, tree: string, sub: string)
    requires |header| <= start <= |t| && Search(t, header) == Some(start - |header|)
    requires t[start..] == inner + rest && Search(t[start..], TABLE_END) == Some(|inner|)
    requires SetThree(inner, commit, tree, sub) == Some(edited)
    ensures SetInBlock(t, header, TABLE_END, commit, tree, sub) == Some(t[..start] + edited + rest)
  {
    var u := t[start..];
    assert u[..|inner|] == inner && u[|inner|..] == rest;
    BlockSpliced(t, header, TABLE_END, start, u, |inner|, edited, commit, tree, sub);
  }

  /** `set_native`: the three keys of the native block are set, the rest of it and every other key stay. */
  lemma {:induction false} SetNativeUpdates(d: Doc, i: nat, es: Entries, commit: string, tree: string, sub: string)
    requires WellFormed(d) && i < |d| && d[i] == Member("nativeSource", Table(TableLines(es))) && FirstOfItsName(d, i)
    requires WellSpelledEntries(es) && HasTriple(es) && Spelled(commit) && Spelled(tree) && Spelled(sub)
    ensures SetNative(Print(d), commit, tree, sub)
         == Some(Print(Update(d, i, Table(TableLines(SetTriple(es, commit, tree, sub))))))
  {
    var fs, comma := SetTriple(es, commit, tree, sub), Comma(d, i);
    SplitAt(d, i);
    SplitUpdated(d, i, Table(TableLines(fs)));
    Surroundings(d, i);
    AfterNonempty(d[i + 1..]);
    NativeHeader();
    NativeEdit(Before(d[..i]), es, comma, After(d[i + 1..]), commit, tree, sub);
    assert Before(d[..i]) + (Lines(d[i], comma) + After(d[i + 1..]))
        == Before(d[..i]) + (["  " + NATIVE] + TableLines(es) + ["  }" + comma] + After(d[i + 1..]));
  }

  // ----- A text has at most one reading -----

  lemma {:induction false} JoinInjective(a: seq<string>, b: seq<string>)
    requires AllFlat(a) && AllFlat(b) && a != [] && b != [] && Joined(a) == Joined(b)
    ensures a == b
    decreases |a|
  {
    var x, y := a[0], b[0];
    assert x in a && y in b && (forall l :: l in a[1..] ==> l in a) && (forall l :: l in b[1..] ==> l in b);
    CutFlat(x, Joined(a[1..]));
    CutFlat(y, Joined(b[1..]));
    assert Cut(Joined(a)) == |x| + (if |a| > 1 then 1 else 0) && Cut(Joined(b)) == |y| + (if |b| > 1 then 1 else 0);
    assert |a| > 1 ==> Joined(a)[|x|] == '\n' && x == Joined(a)[..|x|] && Joined(a[1..]) == Joined(a)[|x| + 1..];
    assert |b| > 1 ==> Joined(b)[|y|] == '\n' && y == Joined(b)[..|y|] && Joined(b[1..]) == Joined(b)[|y| + 1..];
    assert |a| > 1 <==> |b| > 1;
    if |a| > 1 {
      JoinInjective(a[1..], b[1..]);
      assert a == [x] + a[1..] && b == [y] + b[1..];
    }
  }

  lemma {:induction false} DeepRun(a: seq<string>, x: string, r: seq<string>, b: seq<string>, y: string, s: seq<string>)
    requires (forall l :: l in a ==> Deep(l)) && (forall l :: l in b ==> Deep(l)) && !Deep(x) && !Deep(y)
    requires a + [x] + r == b + [y] + s
    ensures a == b && x == y && r == s
  {
    var all := a + [x] + r;
    var same := b + [y] + s;
    assert !Deep(all[|a|]) && !Deep(same[|b|]);
    assert forall i :: 0 <= i < |a| ==> Deep(all[i]);
    assert forall i :: 0 <= i < |b| ==> Deep(same[i]);
    assert |a| == |b|;
    assert a == all[..|a|] == b && x == all[|a|] == y && r == all[|a| + 1..] == s;
  }

  predicate IsComma(c: string) { c == "" || c == "," }

  /** A closing line is never an inner line. */
  lemma ClosingNotDeep(c: string)
    requires IsComma(c)
    ensures !Deep("  }" + c) && !Deep("  ]" + c)
  {
    assert ("  }" + c)[2] == '}' && ("  ]" + c)[2] == ']';
    assert forall l: string :: Deep(l) && l != "" ==> l[2] == l[..4][2];
  }

  /** What follows the key on the member's first line. */
  function Opening(v: Value, c: string): string {
    match v
    case Str(raw) => "\"" + (raw + ("\"" + c))
    case Scalar(raw) => raw + c
    case Table(_) => "{"
    case Items(_) => "["
  }

  lemma {:induction false} OpeningDecides(v: Value, c: string, w: Value, e: string)
    requires WellSpelled(v) && WellSpelled(w) && IsComma(c) && IsComma(e) && Opening(v, c) == Opening(w, e)
    ensures v.Str? ==> v == w && c == e
    ensures v.Scalar? ==> v == w && c == e
    ensures v.Table? ==> w.Table?
    ensures v.Items? ==> w.Items?
  {
    var o, p := Opening(v, c), Opening(w, e);
    assert o[|o| - 1] == p[|p| - 1] && o[0] == p[0];
    if v.Str? && w.Str? {
      assert c == e;
      QuotedRaw(v.raw, c, o);
      QuotedRaw(w.raw, c, o);
    }
    if v.Scalar? && w.Scalar? {
      assert c == e;
      assert v.raw == o[..|v.raw|] && w.raw == o[..|w.raw|];
    }
  }

  lemma QuotedRaw(raw: string, c: string, o: string)
    requires o == Opening(Str(raw), c)
    ensures |o| == |raw| + 2 + |c| && o[1..1 + |raw|] == raw
  {
  }

  lemma {:induction false} BlocksDecided(k: string, o: string, a: seq<string>, c: string, r: seq<string>,
                                         b: seq<string>, e: string, s: seq<string>, close: string)
    requires AllDeep(a) && AllDeep(b) && [k + o] + a + [close + c] + r == [k + o] + b + [close + e] + s
    requires !Deep(close + c) && !Deep(close + e)
    ensures a == b && c == e && r == s
  {
    assert ([k + o] + a + [close + c] + r)[1..] == a + [close + c] + r;
    assert ([k + o] + b + [close + e] + s)[1..] == b + [close + e] + s;
    DeepRun(a, close + c, r, b, close + e, s);
    assert c == (close + c)[|close|..] && e == (close + e)[|close|..];
  }

  lemma {:induction false} MemberDecided(m: Member, c: string, r: seq<string>, n: Member, e: string, s: seq<string>)
    requires NoQuote(m.key) && NoQuote(n.key) && WellSpelled(m.value) && WellSpelled(n.value) && IsComma(c)
    requires IsComma(e)
    requires Lines(m, c) + r == Lines(n, e) + s
    ensures m == n && c == e && r == s
  {
    var l := (Lines(m, c) + r)[0];
    assert l == Head(m.key) + Opening(m.value, c) && l == Head(n.key) + Opening(n.value, e);
    assert l[..|Head(m.key)|] == Head(m.key) && l[..|Head(n.key)|] == Head(n.key);
    SameHeadSameKey(l, m.key, n.key);
    assert Opening(m.value, c) == l[|Head(m.key)|..] == Opening(n.value, e);
    OpeningDecides(m.value, c, n.value, e);
    ClosingNotDeep(c);
    ClosingNotDeep(e);
    match m.value {
      case Str(_) => assert r == (Lines(m, c) + r)[1..] && s == (Lines(n, e) + s)[1..];
      case Scalar(_) => assert r == (Lines(m, c) + r)[1..] && s == (Lines(n, e) + s)[1..];
      case Table(lines) => BlocksDecided(Head(m.key), "{", lines, c, r, n.value.lines, e, s, "  }");
      case Items(lines) => BlocksDecided(Head(m.key), "[", lines, c, r, n.value.lines, e, s, "  ]");
    }
  }

  ghost predicate WellSpelledMembers(d: Doc) {
    forall i :: 0 <= i < |d| ==> Flat(d[i].key) && NoQuote(d[i].key) && WellSpelled(d[i].value)
  }

  lemma {:induction false} MembersDecided(d: Doc, e: Doc)
    requires WellSpelledMembers(d) && WellSpelledMembers(e) && After(d) == After(e)
    ensures d == e
    decreases |d|
  {
    AfterStart(d);
    AfterStart(e);
    if d != [] {
      var c, b := if |d| == 1 then "" else ",", if |e| == 1 then "" else ",";
      var r, s := d[1..], e[1..];
      MemberDecided(d[0], c, After(r), e[0], b, After(s));
      MembersDecided(r, s);
      assert d == [d[0]] + r && e == [e[0]] + s;
    }
  }

  lemma AfterStart(d: Doc)
    ensures d == [] <==> After(d)[0] == "}"
  {
    if d != [] { assert After(d)[0][0] == Head(d[0].key)[0] == ' '; }
  }

  lemma {:induction false} AfterFlat(d: Doc)
    requires WellSpelledMembers(d)
    ensures AllFlat(After(d))
  {
    if d != [] {
      AfterFlat(d[1..]);
      LinesFlat(d[0], if |d| == 1 then "" else ",");
    }
  }

  /** A text has at most one reading, so an edit that prints an updated document changes what is read to exactly
      that. */
  lemma {:induction false} PrintInjective(d: Doc, e: Doc)
    requires WellFormed(d) && WellFormed(e) && Print(d) == Print(e)
    ensures d == e
  {
    AfterFlat(d);
    AfterFlat(e);
    JoinInjective(DocLines(d), DocLines(e));
    assert After(d) == DocLines(d)[1..] && After(e) == DocLines(e)[1..];
    MembersDecided(d, e);
  }

  /** Reading back: the well-formed document a text spells, if any. */
  ghost function Load(t: Text): Option<Doc> {
    if exists d :: WellFormed(d) && Print(d) == t then
      var d :| WellFormed(d) && Print(d) == t; Some(d)
    else None
  }

  lemma {:induction false} LoadPrinted(d: Doc)
    requires WellFormed(d)
    ensures Load(Print(d)) == Some(d)
  {
    var e :| WellFormed(e) && Print(e) == Print(d) && Load(Print(d)) == Some(e);
    PrintInjective(d, e);
  }

  lemma {:induction false} TableLinesInjective(es: Entries, fs: Entries)
    requires WellSpelledEntries(es) && WellSpelledEntries(fs) && TableLines(es) == TableLines(fs)
    ensures es == fs
  {
    assert |es| == |TableLines(es)| == |fs|;
    forall i | 0 <= i < |es| ensures es[i] == fs[i] {
      var c := if i + 1 == |es| then "" else ",";
      assert TableLines(es)[i] == EntryLine(es[i], c) && TableLines(fs)[i] == EntryLine(fs[i], c);
      EntryLineInjective(es[i], fs[i], c, EntryLine(es[i], c));
    }
  }

  lemma EntryLineInjective(e: (string, string), f: (string, string), c: string, l: string)
    requires Spelled(e.0) && Spelled(f.0) && l == EntryLine(e, c) == EntryLine(f, c)
    ensures e == f
  {
    EntryKey(l, e.0);
    EntryKey(l, f.0);
    var w := l[|KeyPrefix("    ", e.0)|..];
    assert w == (e.1 + ['"']) + c && w == (f.1 + ['"']) + c;
    assert e.1 == w[..|e.1|] && f.1 == w[..|f.1|];
  }
}
