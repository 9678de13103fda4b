/** Targeted edits of pretty-printed JSON: `sub_once`, `set_key`, `set_source_files`, `set_finish_args`
    and `set_native` (ci/repin-snitchwatch.py), as scans over characters the way the regular
    expressions run, and what they do to a document in the two-space layout of `json.dumps(indent=2)`. */
module PinText {
  import opened Options
  import opened Strings

  type Text = string

  // ----- Lines -----

  /** Position after the first newline, or the end. */
  function Cut(t: Text): (n: nat)
    ensures n <= |t| && (t != "" ==> n > 0)
  {
    if t == "" then 0 else if t[0] == '\n' then 1 else 1 + Cut(t[1..])
  }

  /** Lines as a text, without a final newline. */
  function Joined(lines: seq<string>): Text { Strings.Join(lines, '\n') }

  predicate Flat(s: string) { forall i :: 0 <= i < |s| ==> s[i] != '\n' }

  ghost predicate AllFlat(lines: seq<string>) { forall l :: l in lines ==> Flat(l) }

  // ----- Replacing a quoted value after a line prefix -----

  datatype Edit = Edit(text: Text, count: nat)

  /** `re.subn(r'(^PREFIX)[^Q]*(Q)', ...)` in multi-line mode, from the start of a line on. */
  function SubQuoted(t: Text, prefix: string, q: char, value: string): Edit
    requires prefix != ""
    decreases |t|
  {
    if t == "" then Edit("", 0)
    else if prefix <= t && Find(t[|prefix|..], q) < |t| - |prefix| then
      var rest := t[|prefix| + Find(t[|prefix|..], q) + 1..];
      var n := Cut(rest);
      var more := SubQuoted(rest[n..], prefix, q, value);
      Edit(prefix + value + [q] + rest[..n] + more.text, more.count + 1)
    else
      var n := Cut(t);
      var more := SubQuoted(t[n..], prefix, q, value);
      Edit(t[..n] + more.text, more.count)
  }

  /** `sub_once`: exactly one replacement, or a refusal. */
  function Once(e: Edit): Option<Text> { if e.count == 1 then Some(e.text) else None }

  function KeyPrefix(indent: string, key: string): string { indent + "\"" + key + "\": \"" }

  function SetKey(t: Text, key: string, value: string, indent: string): Option<Text> {
    Once(SubQuoted(t, KeyPrefix(indent, key), '"', value))
  }

  /** The same replacement, line by line. */
  function SubLine(l: string, prefix: string, q: char, value: string): string {
    if prefix <= l then prefix + value + l[|prefix| + Find(l[|prefix|..], q)..] else l
  }

  ghost predicate Closed(lines: seq<string>, prefix: string, q: char) {
    forall l :: l in lines && prefix <= l ==> Find(l[|prefix|..], q) < |l| - |prefix|
  }

  ghost function SubLines(lines: seq<string>, prefix: string, q: char, value: string): seq<string> {
    if lines == [] then [] else [SubLine(lines[0], prefix, q, value)] + SubLines(lines[1..], prefix, q, value)
  }

  ghost function Hits(lines: seq<string>, prefix: string): nat {
    if lines == [] then 0 else (if prefix <= lines[0] then 1 else 0) + Hits(lines[1..], prefix)
  }

  lemma {:induction false} CutFlat(l: string, t: Text)
    requires Flat(l)
    ensures Cut(l + "\n" + t) == |l| + 1
    ensures Cut(l) == |l|
    decreases |l|
  {
    if l == "" {
      assert l + "\n" + t == "\n" + t;
    } else {
      CutFlat(l[1..], t);
      assert (l + "\n" + t)[1..] == l[1..] + "\n" + t;
    }
  }

  lemma {:induction false} FindExtended(a: string, b: string, q: char)
    requires Find(a, q) < |a|
    ensures Find(a + b, q) == Find(a, q)
    decreases |a|
  {
    if a[0] != q {
      assert (a + b)[1..] == a[1..] + b;
      FindExtended(a[1..], b, q);
    }
  }

  /** A prefix without newline matches at a line start exactly when the line has it. */
  lemma PrefixInLine(l: string, t: Text, prefix: string)
    requires Flat(prefix)
    ensures prefix <= l + "\n" + t <==> prefix <= l
  {
    var s := l + "\n" + t;
    if prefix <= s {
      assert s[|l|] == '\n';
      assert |prefix| <= |l|;
      assert prefix == s[..|prefix|] == l[..|prefix|];
    }
  }

  lemma SliceSlice(s: string, a: nat, b: nat)
    requires a + b <= |s|
    ensures s[a..][b..] == s[a + b..]
  {
  }

  lemma {:induction false} OneHitText(l: string, prefix: string, q: char, value: string, n: nat)
    requires prefix <= l && n == Find(l[|prefix|..], q) < |l| - |prefix|
    ensures prefix + value + [q] + l[|prefix|..][n + 1..] + "" == SubLine(l, prefix, q, value)
  {
    var w := l[|prefix|..];
    assert w[n..] == [q] + w[n + 1..];
    assert l[|prefix| + n..] == w[n..];
  }

  lemma {:induction false} SubOneHit(l: string, prefix: string, q: char, value: string, n: nat)
    requires prefix != "" && Flat(l) && prefix <= l && n == Find(l[|prefix|..], q) < |l| - |prefix|
    ensures SubQuoted(l, prefix, q, value) == Edit(SubLine(l, prefix, q, value), 1)
  {
    var rest := l[|prefix|..][n + 1..];
    CutFlat(rest, "");
    assert rest[|rest|..] == "" && rest[..|rest|] == rest;
    SubStep(l, prefix, q, value, l[|prefix|..], rest);
    OneHitText(l, prefix, q, value, n);
  }

  lemma {:induction false} SubOneLine(l: string, prefix: string, q: char, value: string)
    requires prefix != "" && Flat(l) && (prefix <= l ==> Find(l[|prefix|..], q) < |l| - |prefix|)
    ensures SubQuoted(l, prefix, q, value) == Edit(SubLine(l, prefix, q, value), if prefix <= l then 1 else 0)
  {
    if prefix <= l {
      SubOneHit(l, prefix, q, value, Find(l[|prefix|..], q));
    } else if l != "" {
      CutFlat(l, "");
      assert l[|l|..] == "" && l[..|l|] == l && l + "" == l;
    }
  }

  lemma {:induction false} SubMiss(l: string, t: Text, prefix: string, q: char, value: string)
    requires prefix != "" && Flat(l) && !(prefix <= l + "\n" + t)
    ensures
      var more := SubQuoted(t, prefix, q, value);
      SubQuoted(l + "\n" + t, prefix, q, value) == Edit(l + "\n" + more.text, more.count)
  {
    var s := l + "\n" + t;
    CutFlat(l, t);
    assert s[|l| + 1..] == t && s[..|l| + 1] == l + "\n";
  }

  /** One step of the scan, when it matches. */
  lemma {:induction false} SubStep(s: Text, prefix: string, q: char, value: string, w: Text, tail: Text)
    requires prefix != "" && prefix <= s && w == s[|prefix|..] && Find(w, q) < |w| && tail == w[Find(w, q) + 1..]
    ensures
      var more := SubQuoted(tail[Cut(tail)..], prefix, q, value);
      SubQuoted(s, prefix, q, value) == Edit(prefix + value + [q] + tail[..Cut(tail)] + more.text, more.count + 1)
  {
    SliceSlice(s, |prefix|, Find(w, q) + 1);
    assert s != "" && |s| - |prefix| == |w|;
    var rest := s[|prefix| + Find(s[|prefix|..], q) + 1..];
    assert rest == tail;
  }

  lemma {:induction false} SubHit(v: string, own: string, t: Text, prefix: string, q: char, value: string)
    requires prefix != "" && Flat(own) && Find(v + [q], q) == |v|
    ensures
      var more := SubQuoted(t, prefix, q, value);
      SubQuoted(prefix + ((v + [q]) + (own + "\n" + t)), prefix, q, value)
      == Edit(prefix + value + [q] + (own + "\n") + more.text, more.count + 1)
  {
    var tail := own + "\n" + t;
    var w := (v + [q]) + tail;
    FindExtended(v + [q], tail, q);
    assert w[|v| + 1..] == tail;
    CutFlat(own, t);
    assert tail[|own| + 1..] == t && tail[..|own| + 1] == own + "\n";
    assert (prefix + w)[|prefix|..] == w;
    SubStep(prefix + w, prefix, q, value, w, tail);
  }

  lemma {:induction false} FindSplit(l: string, q: char)
    requires Find(l, q) < |l|
    ensures l == l[..Find(l, q)] + [q] + l[Find(l, q) + 1..]
    ensures Find(l[..Find(l, q)] + [q], q) == Find(l, q)
    decreases |l|
  {
    if l[0] == q {
      assert l[..0] + [q] == [q];
    } else {
      FindSplit(l[1..], q);
      var n := Find(l[1..], q);
      assert (l[..n + 1] + [q])[1..] == l[1..][..n] + [q];
    }
  }

  lemma {:induction false} HitText(l: string, t: Text, prefix: string, q: char, value: string, v: string, own: string)
    requires l == prefix + (v + ([q] + own)) && Find(l[|prefix|..], q) == |v|
    ensures l + "\n" + t == prefix + ((v + [q]) + (own + "\n" + t))
    ensures prefix + value + [q] + (own + "\n") == SubLine(l, prefix, q, value) + "\n"
  {
    assert l[|prefix|..] == v + ([q] + own);
    assert l[|prefix| + |v|..] == [q] + own;
  }

  lemma {:induction false} SubFirstParts(l: string, t: Text, prefix: string, q: char, value: string, v: string,
                                         own: string)
    requires prefix != "" && Flat(l) && prefix <= l && l[|prefix|..] == v + [q] + own
    requires Find(l[|prefix|..], q) == |v| == Find(v + [q], q)
    ensures SubQuoted(l + "\n" + t, prefix, q, value)
         == Edit(SubLine(l, prefix, q, value) + "\n" + SubQuoted(t, prefix, q, value).text,
                 SubQuoted(t, prefix, q, value).count + 1)
  {
    assert v + [q] + own == v + ([q] + own);
    assert l == prefix + (v + ([q] + own));
    assert Flat(own) by { assert own == l[|prefix| + |v| + 1..]; }
    HitText(l, t, prefix, q, value, v, own);
    SubHit(v, own, t, prefix, q, value);
  }

  lemma {:induction false} SubFirstHit(l: string, t: Text, prefix: string, q: char, value: string)
    requires prefix != "" && Flat(l) && prefix <= l && Find(l[|prefix|..], q) < |l| - |prefix|
    ensures SubQuoted(l + "\n" + t, prefix, q, value)
         == Edit(SubLine(l, prefix, q, value) + "\n" + SubQuoted(t, prefix, q, value).text,
                 SubQuoted(t, prefix, q, value).count + 1)
  {
    var r := l[|prefix|..];
    FindSplit(r, q);
    SubFirstParts(l, t, prefix, q, value, r[..Find(r, q)], r[Find(r, q) + 1..]);
  }

  lemma {:induction false} SubFirstLine(l: string, t: Text, prefix: string, q: char, value: string)
    requires prefix != "" && Flat(prefix) && Flat(l) && (prefix <= l ==> Find(l[|prefix|..], q) < |l| - |prefix|)
    ensures SubQuoted(l + "\n" + t, prefix, q, value)
         == Edit(SubLine(l, prefix, q, value) + "\n" + SubQuoted(t, prefix, q, value).text,
                 SubQuoted(t, prefix, q, value).count + if prefix <= l then 1 else 0)
  {
    PrefixInLine(l, t, prefix);
    if prefix <= l {
      SubFirstHit(l, t, prefix, q, value);
    } else {
      SubMiss(l, t, prefix, q, value);
    }
  }

  /** Where every match closes on its own line, the scan over characters is the replacement line by line. */
  lemma {:induction false} SubByLine(lines: seq<string>, prefix: string, q: char, value: string)
    requires prefix != "" && Flat(prefix) && AllFlat(lines) && Closed(lines, prefix, q)
    ensures SubQuoted(Joined(lines), prefix, q, value)
         == Edit(Joined(SubLines(lines, prefix, q, value)), Hits(lines, prefix))
    decreases |lines|
  {
    if lines != [] {
      var rest := lines[1..];
      assert lines[0] in lines && forall l :: l in rest ==> l in lines;
      if |lines| == 1 {
        SubOneLine(lines[0], prefix, q, value);
      } else {
        SubByLine(rest, prefix, q, value);
        SubFirstLine(lines[0], Joined(rest), prefix, q, value);
        assert |SubLines(rest, prefix, q, value)| == |rest| by { SubLinesLength(rest, prefix, q, value); }
        assert SubLines(lines, prefix, q, value)[1..] == SubLines(rest, prefix, q, value);
      }
    }
  }

  lemma {:induction false} SubLinesLength(lines: seq<string>, prefix: string, q: char, value: string)
    ensures |SubLines(lines, prefix, q, value)| == |lines|
    decreases |lines|
  {
    if lines != [] {
      SubLinesLength(lines[1..], prefix, q, value);
    }
  }

  ghost predicate NoneStarts(lines: seq<string>, prefix: string) { forall l :: l in lines ==> !(prefix <= l) }

  lemma {:induction false} NoHits(lines: seq<string>, prefix: string, q: char, value: string)
    requires NoneStarts(lines, prefix)
    ensures Closed(lines, prefix, q) && SubLines(lines, prefix, q, value) == lines && Hits(lines, prefix) == 0
    decreases |lines|
  {
    if lines != [] {
      assert lines[0] in lines && forall l :: l in lines[1..] ==> l in lines;
      NoHits(lines[1..], prefix, q, value);
      assert lines == [lines[0]] + lines[1..];
    }
  }

  lemma {:induction false} SubLinesConcat(a: seq<string>, b: seq<string>, prefix: string, q: char, value: string)
    ensures SubLines(a + b, prefix, q, value) == SubLines(a, prefix, q, value) + SubLines(b, prefix, q, value)
    decreases |a|
  {
    if a == [] {
      assert a + b == b;
    } else {
      assert (a + b)[0] == a[0] && (a + b)[1..] == a[1..] + b;
      SubLinesConcat(a[1..], b, prefix, q, value);
    }
  }

  lemma {:induction false} HitsConcat(a: seq<string>, b: seq<string>, prefix: string)
    ensures Hits(a + b, prefix) == Hits(a, prefix) + Hits(b, prefix)
    decreases |a|
  {
    if a == [] {
      assert a + b == b;
    } else {
      assert (a + b)[0] == a[0] && (a + b)[1..] == a[1..] + b;
      HitsConcat(a[1..], b, prefix);
    }
  }

  lemma {:induction false} LineEdit(prefix: string, was: string, q: char, tail: string, value: string)
    requires Find(was + [q], q) == |was|
    ensures
      var line := prefix + ((was + [q]) + tail);
      && prefix <= line && Find(line[|prefix|..], q) < |line| - |prefix|
      && SubLine(line, prefix, q, value) == prefix + ((value + [q]) + tail)
  {
    var line := prefix + ((was + [q]) + tail);
    assert line[|prefix|..] == (was + [q]) + tail;
    FindExtended(was + [q], tail, q);
    assert line[|prefix| + |was|..] == [q] + tail;
  }

  lemma {:induction false} OneHit(before: seq<string>, line: string, after: seq<string>, prefix: string, q: char,
                                  value: string)
    requires prefix <= line && Find(line[|prefix|..], q) < |line| - |prefix|
    requires NoneStarts(before, prefix) && NoneStarts(after, prefix)
    ensures
      var all := before + ([line] + after);
      && Closed(all, prefix, q) && Hits(all, prefix) == 1
      && SubLines(all, prefix, q, value) == before + ([SubLine(line, prefix, q, value)] + after)
  {
    var all := before + ([line] + after);
    assert Closed(all, prefix, q);
    SubLinesConcat(before, [line] + after, prefix, q, value);
    HitsConcat(before, [line] + after, prefix);
    NoHits(before, prefix, q, value);
    NoHits(after, prefix, q, value);
    assert ([line] + after)[1..] == after;
  }

  /** One quoted value on one line: the edit replaces it and touches nothing else. */
  lemma {:induction false} SubOnce(before: seq<string>, prefix: string, was: string, q: char, tail: string,
                                   after: seq<string>, value: string)
    requires prefix != "" && Flat(prefix)
    requires AllFlat(before) && AllFlat(after) && Flat(prefix + ((was + [q]) + tail)) && Find(was + [q], q) == |was|
    requires NoneStarts(before, prefix) && NoneStarts(after, prefix)
    ensures Once(SubQuoted(Joined(before + ([prefix + ((was + [q]) + tail)] + after)), prefix, q, value))
         == Some(Joined(before + ([prefix + ((value + [q]) + tail)] + after)))
  {
    var line := prefix + ((was + [q]) + tail);
    LineEdit(prefix, was, q, tail, value);
    OneHit(before, line, after, prefix, q, value);
    SubByLine(before + ([line] + after), prefix, q, value);
  }

  // ----- Replacing a block -----

  /** Position of the first occurrence. */
  function Search(t: Text, pat: string): Option<nat>
    decreases |t|
  {
    if pat <= t then Some(0)
    else if t == "" then None
    else
      match Search(t[1..], pat)
      case None => None
      case Some(n) => Some(n + 1)
  }

  lemma {:induction false} SearchFits(t: Text, pat: string)
    ensures Search(t, pat).Some? ==> Search(t, pat).value + |pat| <= |t|
    decreases |t|
  {
    if !(pat <= t) && t != "" {
      SearchFits(t[1..], pat);
    }
  }

  /** `re.subn(r'(?s)(^HEADER).*?(CLOSING)', ...)` in multi-line mode, from the start of a line on. */
  function SubBlock(t: Text, header: string, closing: string, body: string): Edit
    requires header != ""
    decreases |t|
  {
    if t == "" then Edit("", 0)
    else if header <= t && Search(t[|header|..], closing).Some? then
      SearchFits(t[|header|..], closing);
      var rest := t[|header| + Search(t[|header|..], closing).value + |closing|..];
      var n := Cut(rest);
      var more := SubBlock(rest[n..], header, closing, body);
      Edit(header + body + closing + rest[..n] + more.text, more.count + 1)
    else
      var n := Cut(t);
      var more := SubBlock(t[n..], header, closing, body);
      Edit(t[..n] + more.text, more.count)
  }

  const TABLE_END := "\n  }"
  const LIST_END := "\n  ]"

  function TableHeader(key: string): string { "  \"" + key + "\": {" }
  function ListHeader(key: string): string { "  \"" + key + "\": [" }

  function SetTable(t: Text, key: string, body: string): Option<Text> {
    Once(SubBlock(t, TableHeader(key) + "\n", TABLE_END, body))
  }

  function SetList(t: Text, key: string, body: string): Option<Text> {
    Once(SubBlock(t, ListHeader(key) + "\n", LIST_END, body))
  }

  lemma {:induction false} HeaderLine(l: string, t: Text, h: string)
    requires Flat(l) && Flat(h)
    ensures h + "\n" <= l + "\n" + t <==> h == l
    ensures !(h + "\n" <= l)
  {
    var s := l + "\n" + t;
    assert (h + "\n")[|h|] == '\n';
    CutFlat(l, t);
    if h + "\n" <= s {
      var rest := s[|h| + 1..];
      assert s == h + "\n" + rest;
      CutFlat(h, rest);
      assert h == s[..|h|] == l;
    }
  }

  lemma {:induction false} JoinConcat(a: seq<string>, b: seq<string>)
    requires a != [] && b != []
    ensures Joined(a + b) == Joined(a) + "\n" + Joined(b)
    decreases |a|
  {
    assert (a + b)[0] == a[0] && (a + b)[1..] == a[1..] + b;
    if |a| == 1 {
      assert a[1..] + b == b;
    } else {
      JoinConcat(a[1..], b);
      assert a[0] + "\n" + (Joined(a[1..]) + "\n" + Joined(b)) == (a[0] + "\n" + Joined(a[1..])) + "\n" + Joined(b);
    }
  }

  lemma {:induction false} BlockMiss(l: string, t: Text, h: string, closing: string, body: string)
    requires Flat(l) && Flat(h) && l != h
    ensures
      var more := SubBlock(t, h + "\n", closing, body);
      SubBlock(l + "\n" + t, h + "\n", closing, body) == Edit(l + "\n" + more.text, more.count)
  {
    var s := l + "\n" + t;
    HeaderLine(l, t, h);
    CutFlat(l, t);
    assert s[|l| + 1..] == t && s[..|l| + 1] == l + "\n";
  }

  lemma {:induction false} BlockNone(lines: seq<string>, h: string, closing: string, body: string)
    requires AllFlat(lines) && Flat(h) && h !in lines
    ensures SubBlock(Joined(lines), h + "\n", closing, body) == Edit(Joined(lines), 0)
    decreases |lines|
  {
    if |lines| == 1 {
      var l := lines[0];
      assert l in lines;
      HeaderLine(l, "", h);
      CutFlat(l, "");
      assert l[|l|..] == "" && l[..|l|] == l && l + "" == l;
    } else if lines != [] {
      assert lines[0] in lines && forall l :: l in lines[1..] ==> l in lines;
      BlockNone(lines[1..], h, closing, body);
      BlockMiss(lines[0], Joined(lines[1..]), h, closing, body);
    }
  }

  /** Lines passed over before the block. */
  lemma {:induction false} BlockAfter(before: seq<string>, rest: seq<string>, h: string, closing: string, body: string)
    requires AllFlat(before) && Flat(h) && h !in before && rest != []
    ensures
      var more := SubBlock(Joined(rest), h + "\n", closing, body);
      SubBlock(Joined(before + rest), h + "\n", closing, body)
      == Edit((if before == [] then "" else Joined(before) + "\n") + more.text, more.count)
    decreases |before|
  {
    if before == [] {
      assert before + rest == rest;
    } else {
      var l, tail := before[0], before[1..];
      assert l in before && forall x :: x in tail ==> x in before;
      assert (before + rest)[0] == l && (before + rest)[1..] == tail + rest;
      BlockAfter(tail, rest, h, closing, body);
      BlockMiss(l, Joined(tail + rest), h, closing, body);
      var more := SubBlock(Joined(rest), h + "\n", closing, body);
      if tail == [] {
        assert l + "\n" + ("" + more.text) == Joined(before) + "\n" + more.text;
      } else {
        assert l + "\n" + (Joined(tail) + "\n" + more.text) == Joined(before) + "\n" + more.text;
      }
    }
  }

  lemma {:induction false} SearchPastFlat(l: string, w: Text, pat: string)
    requires Flat(l) && pat != "" && pat[0] == '\n'
    ensures Search(l + w, pat) == match Search(w, pat) { case None => None case Some(n) => Some(|l| + n) }
    decreases |l|
  {
    if l == "" {
      assert l + w == w;
    } else {
      assert (l + w)[0] == l[0] && (l + w)[1..] == l[1..] + w;
      SearchPastFlat(l[1..], w, pat);
    }
  }

  /** A blank line or one indented by four spaces. */
  predicate Deep(l: string) { l == "" || (|l| >= 4 && l[..4] == "    " && Flat(l)) }

  ghost predicate AllDeep(lines: seq<string>) { lines != [] && forall l :: l in lines ==> Deep(l) }

  ghost predicate Closing(c: string) { |c| == 4 && c[..3] == "\n  " && c[3] != ' ' }

  /** A text that does not open with a line indented by two spaces only. */
  predicate OpensDeep(w: Text) { w != "" && (w[0] == '\n' || (|w| >= 4 && w[..4] == "    ")) }

  lemma {:induction false} SearchPastDeep(w: Text, closing: string)
    requires OpensDeep(w) && Closing(closing)
    ensures Search("\n" + w, closing) == match Search(w, closing) { case None => None case Some(n) => Some(n + 1) }
  {
    var nl := "\n" + w;
    assert nl[1..] == w && nl[1] == w[0];
    assert closing[1] == closing[..3][1] == ' ' && (w[0] != '\n' ==> nl[3] == w[2] == w[..4][2]);
    assert !(closing <= nl);
  }

  lemma {:induction false} JoinDeep(inner: seq<string>, rest: Text)
    requires AllDeep(inner) && rest != "" && rest[0] == '\n'
    ensures OpensDeep(Joined(inner) + rest)
  {
    var l, t := inner[0], Joined(inner);
    assert l in inner && l <= t;
    if l == "" {
      assert t == "" || t[0] == '\n';
    } else {
      assert (t + rest)[..4] == l[..4];
    }
  }

  /** The first closing bracket at two spaces is the one after the block's own lines. */
  lemma {:induction false} SearchClosing(inner: seq<string>, closing: string, rest: Text)
    requires AllDeep(inner) && Closing(closing)
    ensures Search(Joined(inner) + (closing + rest), closing) == Some(|Joined(inner)|)
    decreases |inner|
  {
    var l, tail := inner[0], inner[1..];
    assert closing[0] == closing[..3][0] == '\n';
    assert l in inner && forall x :: x in tail ==> x in inner;
    if |inner| == 1 {
      SearchPastFlat(l, closing + rest, closing);
    } else {
      SearchClosing(tail, closing, rest);
      var w := Joined(tail) + (closing + rest);
      JoinDeep(tail, closing + rest);
      SearchPastDeep(w, closing);
      SearchPastFlat(l, "\n" + w, closing);
      LineRegrouped(l, Joined(tail), closing + rest);
      assert |Joined(inner)| == |l| + 1 + |Joined(tail)|;
    }
  }

  lemma LineRegrouped(a: Text, b: Text, c: Text)
    ensures (a + "\n" + b) + c == a + ("\n" + (b + c))
  {
  }

  /** One step of the block scan, when it matches. */
  lemma {:induction false} BlockUnfolded(s: Text, header: string, closing: string, body: string, n: nat, rest: Text)
    requires header != "" && header <= s && Search(s[|header|..], closing) == Some(n) && |header| + n + |closing| <= |s|
    requires rest == s[|header| + n + |closing|..]
    ensures
      var more := SubBlock(rest[Cut(rest)..], header, closing, body);
      SubBlock(s, header, closing, body)
          == Edit(header + body + closing + rest[..Cut(rest)] + more.text, more.count + 1)
  {
  }

  lemma {:induction false} BlockStep(h: string, inner: Text, closing: string, rest: Text, body: string)
    requires Search(inner + (closing + rest), closing) == Some(|inner|)
    ensures
      var more := SubBlock(rest[Cut(rest)..], h + "\n", closing, body);
      SubBlock((h + "\n") + (inner + (closing + rest)), h + "\n", closing, body)
      == Edit((h + "\n") + body + closing + rest[..Cut(rest)] + more.text, more.count + 1)
  {
    var header, w := h + "\n", inner + (closing + rest);
    var s := header + w;
    assert header <= s && s[|header|..] == w;
    assert s[|header| + |inner| + |closing|..] == rest;
    BlockUnfolded(s, header, closing, body, |inner|, rest);
  }

  lemma {:induction false} TailCut(tail: string, t: Text)
    requires Flat(tail)
    ensures var rest := tail + "\n" + t; rest[Cut(rest)..] == t && rest[..Cut(rest)] == tail + "\n"
  {
    CutFlat(tail, t);
  }

  lemma BlockRegrouped(h: Text, body: Text, closing: Text, tail: Text, t: Text)
    ensures (h + "\n") + body + closing + (tail + "\n") + t == (h + "\n") + (body + (closing + (tail + "\n" + t)))
  {
  }

  lemma {:induction false} BlockHere(h: string, inner: seq<string>, closing: string, tail: string,
                                     after: seq<string>, bodyLines: seq<string>)
    requires AllFlat(after) && Flat(h) && Flat(tail) && AllDeep(inner) && Closing(closing)
    requires h !in after && after != [] && bodyLines != []
    ensures SubBlock(Joined([h] + inner + [closing[1..] + tail] + after), h + "\n", closing, Joined(bodyLines))
         == Edit(Joined([h] + bodyLines + [closing[1..] + tail] + after), 1)
  {
    var body := Joined(bodyLines);
    var rest := tail + "\n" + Joined(after);
    SearchClosing(inner, closing, rest);
    BlockStep(h, Joined(inner), closing, rest, body);
    BlockText(h, inner, closing, tail, after);
    BlockText(h, bodyLines, closing, tail, after);
    TailCut(tail, Joined(after));
    BlockNone(after, h, closing, body);
    BlockRegrouped(h, body, closing, tail, Joined(after));
  }

  /** One block: the edit replaces its lines and touches nothing else. */
  lemma {:induction false} BlockOnce(before: seq<string>, h: string, inner: seq<string>, closing: string, tail: string,
                                     after: seq<string>, bodyLines: seq<string>)
    requires AllFlat(before) && AllFlat(after) && Flat(h) && Flat(tail) && AllDeep(inner) && Closing(closing)
    requires h !in before && h !in after && after != [] && bodyLines != []
    ensures Once(SubBlock(Joined(before + ([h] + inner + [closing[1..] + tail] + after)), h + "\n", closing,
                          Joined(bodyLines)))
         == Some(Joined(before + ([h] + bodyLines + [closing[1..] + tail] + after)))
  {
    var was, now := [h] + inner + [closing[1..] + tail] + after, [h] + bodyLines + [closing[1..] + tail] + after;
    BlockHere(h, inner, closing, tail, after, bodyLines);
    BlockAfter(before, was, h, closing, Joined(bodyLines));
    BlockAround(before, now);
  }

  lemma {:induction false} BlockAround(before: seq<string>, rest: seq<string>)
    requires rest != []
    ensures Joined(before + rest) == (if before == [] then "" else Joined(before) + "\n") + Joined(rest)
  {
    if before != [] {
      JoinConcat(before, rest);
    } else {
      assert before + rest == rest;
    }
  }

  lemma {:induction false} ClosingText(closing: string, tail: string, t: Text)
    requires Closing(closing)
    ensures "\n" + ((closing[1..] + tail) + "\n" + t) == closing + (tail + "\n" + t)
  {
    assert closing[..3][0] == '\n';
    assert closing == "\n" + closing[1..];
  }

  lemma {:induction false} BlockText(h: string, inner: seq<string>, closing: string, tail: string, after: seq<string>)
    requires inner != [] && after != [] && Closing(closing)
    ensures Joined([h] + inner + [closing[1..] + tail] + after)
         == (h + "\n") + (Joined(inner) + (closing + (tail + "\n" + Joined(after))))
  {
    var last := closing[1..] + tail;
    JoinFour(h, inner, last, after);
    ClosingText(closing, tail, Joined(after));
  }

  lemma {:induction false} JoinFour(h: string, inner: seq<string>, last: string, after: seq<string>)
    requires inner != [] && after != []
    ensures Joined([h] + inner + [last] + after)
         == (h + "\n") + (Joined(inner) + ("\n" + (last + "\n" + Joined(after))))
  {
    assert [h] + inner + [last] + after == [h] + (inner + ([last] + after));
    JoinConcat([h], inner + ([last] + after));
    JoinConcat(inner, [last] + after);
    JoinConcat([last], after);
  }
}
