/** Landing a repin file by file: the plan, its write order, and why a half-landed plan is refused
    (ci/repin-snitchwatch.py, `plan_pins`, `plan_policy`, `apply`). */
module RepinLanding {
  import opened Options
  import opened Strings
  import opened PinText
  import opened PinDoc
  import opened Repin
  import opened Orders

  // ----- The digest line of the verifier -----

  const EXPECTED := "EXPECTED_PINS_SHA256 = '"

  /** `re.search(r"^PREFIX([^Q]*)Q")` in multi-line mode, from the start of a line on. */
  function FindQuoted(t: Text, prefix: string, q: char): Option<string>
    requires prefix != ""
    decreases |t|
  {
    if t == "" then None
    else if prefix <= t && Find(t[|prefix|..], q) < |t| - |prefix| then Some(t[|prefix|..][..Find(t[|prefix|..], q)])
    else FindQuoted(t[Cut(t)..], prefix, q)
  }

  predicate Without(t: Text, q: char) { forall i :: 0 <= i < |t| ==> t[i] != q }

  lemma {:induction false} NothingToReplace(t: Text, prefix: string, q: char, v: string)
    requires prefix != "" && prefix[|prefix| - 1] == q && Without(t, q)
    ensures SubQuoted(t, prefix, q, v).count == 0
    decreases |t|
  {
    if t != "" {
      assert |t| >= |prefix| ==> t[|prefix| - 1] != prefix[|prefix| - 1];
      NothingToReplace(t[Cut(t)..], prefix, q, v);
    }
  }

  lemma {:induction false} CutPastPrefix(t: Text, prefix: string)
    requires Flat(prefix) && prefix <= t
    ensures Cut(t) >= |prefix|
    decreases |t|
  {
    if prefix != "" {
      assert t[0] == prefix[0] && prefix[1..] <= t[1..];
      CutPastPrefix(t[1..], prefix[1..]);
    }
  }

  /** The first line keeps its length, so what starts it cannot change when only later lines do. */
  lemma {:induction false} CutKept(t: Text, u: Text)
    requires t != "" && (Cut(t) < |t| || u == "")
    ensures Cut(t[..Cut(t)] + u) == Cut(t)
    decreases |t|
  {
    if t[0] == '\n' {
      assert (t[..1] + u)[0] == '\n';
    } else if |t| > 1 {
      CutKept(t[1..], u);
      assert (t[..Cut(t)] + u)[1..] == t[1..][..Cut(t[1..])] + u;
    } else {
      assert t[..1] + u == t;
    }
  }

  lemma {:induction false} CutEndsLine(t: Text)
    requires Cut(t) < |t|
    ensures Cut(t) > 0 && t[Cut(t) - 1] == '\n'
    decreases |t|
  {
    if t[0] != '\n' { CutEndsLine(t[1..]); }
  }

  lemma {:induction false} MissStays(t: Text, u: Text, prefix: string)
    requires Flat(prefix) && t != "" && Cut(t) < |t| && !(prefix <= t)
    ensures !(prefix <= t[..Cut(t)] + u)
  {
    var n := Cut(t);
    var s := t[..n] + u;
    CutEndsLine(t);
    assert s[n - 1] == '\n' && s[..n - 1] == t[..n - 1];
    assert prefix <= s ==> |prefix| < n;
    assert |prefix| < n ==> s[..|prefix|] == t[..|prefix|];
  }

  lemma {:induction false} FindHit(out: Text, prefix: string, q: char, v: string, tail: Text)
    requires prefix != "" && out == prefix + v + [q] + tail && Find(v + [q], q) == |v|
    ensures FindQuoted(out, prefix, q) == Some(v)
  {
    FindExtended(v + [q], tail, q);
    assert out == prefix + ((v + [q]) + tail) && out[|prefix|..] == (v + [q]) + tail;
    assert ((v + [q]) + tail)[..|v|] == v;
  }

  lemma {:induction false} FindMiss(own: Text, u: Text, prefix: string, q: char)
    requires prefix != "" && own + u != "" && Cut(own + u) == |own| && !(prefix <= own + u)
    ensures FindQuoted(own + u, prefix, q) == FindQuoted(u, prefix, q)
  {
    assert (own + u)[|own|..] == u;
  }

  /** A line whose value is never closed leaves nothing to replace after it. */
  lemma {:induction false} UnclosedIsLast(t: Text, prefix: string, q: char, v: string)
    requires prefix != "" && Flat(prefix) && prefix[|prefix| - 1] == q && prefix <= t
    requires Find(t[|prefix|..], q) == |t| - |prefix|
    ensures SubQuoted(t[Cut(t)..], prefix, q, v).count == 0
  {
    var n := Cut(t);
    CutPastPrefix(t, prefix);
    assert Without(t[n..], q) by {
      forall i | 0 <= i < |t[n..]| ensures t[n..][i] != q { assert t[n..][i] == t[|prefix|..][n - |prefix| + i]; }
    }
    NothingToReplace(t[n..], prefix, q, v);
  }

  lemma {:induction false} FindReplacedHit(t: Text, prefix: string, q: char, v: string)
    requires prefix != "" && prefix <= t && Find(t[|prefix|..], q) < |t| - |prefix| && Find(v + [q], q) == |v|
    ensures FindQuoted(SubQuoted(t, prefix, q, v).text, prefix, q) == Some(v)
  {
    var w := t[|prefix|..];
    var rest := w[Find(w, q) + 1..];
    SubStep(t, prefix, q, v, w, rest);
    var more := SubQuoted(rest[Cut(rest)..], prefix, q, v);
    var tail := rest[..Cut(rest)] + more.text;
    assert (prefix + v + [q]) + rest[..Cut(rest)] + more.text == (prefix + v + [q]) + tail;
    FindHit(SubQuoted(t, prefix, q, v).text, prefix, q, v, tail);
  }

  lemma {:induction false} SubMissed(t: Text, prefix: string, q: char, v: string)
    requires prefix != "" && t != "" && !(prefix <= t && Find(t[|prefix|..], q) < |t| - |prefix|)
    ensures
      var more := SubQuoted(t[Cut(t)..], prefix, q, v);
      SubQuoted(t, prefix, q, v) == Edit(t[..Cut(t)] + more.text, more.count)
  {
  }

  /** After the one replacement the search finds the new value. */
  lemma {:induction false} FindReplaced(t: Text, prefix: string, q: char, v: string)
    requires prefix != "" && Flat(prefix) && prefix[|prefix| - 1] == q && Find(v + [q], q) == |v|
    requires SubQuoted(t, prefix, q, v).count >= 1
    ensures FindQuoted(SubQuoted(t, prefix, q, v).text, prefix, q) == Some(v)
    decreases |t|
  {
    if prefix <= t && Find(t[|prefix|..], q) < |t| - |prefix| {
      FindReplacedHit(t, prefix, q, v);
    } else {
      var n := Cut(t);
      SubMissed(t, prefix, q, v);
      if prefix <= t { UnclosedIsLast(t, prefix, q, v); }
      var more := SubQuoted(t[n..], prefix, q, v);
      assert more.count >= 1 && n < |t|;
      FindReplaced(t[n..], prefix, q, v);
      CutKept(t, more.text);
      MissStays(t, more.text, prefix);
      FindMiss(t[..n], more.text, prefix, q);
    }
  }

  // ----- The policy file -----

  function TripleMap(t: Triple): map<string, string> {
    map["commit" := t.commit, "tree" := t.tree, "submoduleCommit" := t.sub]
  }

  /** The policy as the tool needs it: a native table of exactly the three keys, and three plain strings. */
  ghost predicate PolicyShape(q: Doc, es: Entries) {
    && WellFormed(q)
    && At(q, "nativeSource") == Some(Table(TableLines(es))) && WellSpelledEntries(es)
    && AsMap(es).Keys == {"commit", "tree", "submoduleCommit"}
    && FirstOfItsName(q, IndexOf(q, "nativeSource"))
    && PlainString(At(q, "sourceCommit")) && PlainString(At(q, "sourceTree")) && PlainString(At(q, "sourceCreated"))
  }

  lemma {:induction false} KeysOfMap(es: Entries, key: string)
    ensures HasKey(es, key) <==> key in AsMap(es)
  {
    if es != [] {
      var init, last := es[..|es| - 1], es[|es| - 1];
      KeysOfMap(init, key);
      if HasKey(es, key) {
        var i :| 0 <= i < |es| && es[i].0 == key;
        if i < |init| { assert init[i].0 == key; }
      }
      if HasKey(init, key) {
        var i :| 0 <= i < |init| && init[i].0 == key;
        assert es[i].0 == key;
      }
      if last.0 == key { assert es[|es| - 1].0 == key; }
    }
  }

  lemma {:induction false} SetEntryMap(es: Entries, key: string, v: string)
    ensures AsMap(SetEntry(es, key, v)) == if key in AsMap(es) then AsMap(es)[key := v] else AsMap(es)
  {
    if es != [] {
      var n := |es| - 1;
      SetEntryMap(es[..n], key, v);
      assert SetEntry(es, key, v)[..n] == SetEntry(es[..n], key, v);
    }
  }

  lemma {:induction false} SetTripleMap(es: Entries, to: Triple)
    requires AsMap(es).Keys == {"commit", "tree", "submoduleCommit"}
    ensures AsMap(SetTriple(es, to.commit, to.tree, to.sub)) == TripleMap(to)
  {
    var a := SetEntry(es, "commit", to.commit);
    var b := SetEntry(a, "tree", to.tree);
    SetEntryMap(es, "commit", to.commit);
    SetEntryMap(a, "tree", to.tree);
    SetEntryMap(b, "submoduleCommit", to.sub);
    assert "commit" != "tree" && "commit" != "submoduleCommit" && "tree" != "submoduleCommit";
    assert AsMap(SetTriple(es, to.commit, to.tree, to.sub)).Keys == TripleMap(to).Keys;
  }

  function NewPolicy(q: Doc, es: Entries, to: Triple): Doc {
    Put(q, "nativeSource", Table(TableLines(SetTriple(es, to.commit, to.tree, to.sub))))
  }

  /** The edited policy still has the shape the tool needs. */
  lemma {:induction false} PolicyShapeKept(q: Doc, i: nat, es: Entries, e: Doc, fs: Entries)
    requires PolicyShape(q, es) && WellSpelledEntries(fs) && AsMap(fs).Keys == {"commit", "tree", "submoduleCommit"}
    requires i == IndexOf(q, "nativeSource") && e == Update(q, i, Table(TableLines(fs)))
    requires Changed(q, e, "nativeSource", Table(TableLines(fs)))
    ensures PolicyShape(e, fs)
  {
    PolicyKeysDiffer();
    assert e[i].key == "nativeSource";
    IndexUnique(e, i);
    assert e[..i] == q[..i];
  }

  /** The new table, and the text edit that makes it. */
  lemma {:induction false} NativeTable(es: Entries, to: Triple)
    requires WellSpelledEntries(es) && AsMap(es).Keys == {"commit", "tree", "submoduleCommit"} && SpelledTriple(to)
    ensures var fs := SetTriple(es, to.commit, to.tree, to.sub);
            HasTriple(es) && WellSpelledEntries(fs) && AsMap(fs) == TripleMap(to) && AllDeep(TableLines(fs))
  {
    KeysOfMap(es, "commit");
    KeysOfMap(es, "tree");
    KeysOfMap(es, "submoduleCommit");
    SetThreeEdits(es, to.commit, to.tree, to.sub);
    SetTripleMap(es, to);
    TableLinesDeep(SetTriple(es, to.commit, to.tree, to.sub));
  }

  /** `set_native` on a policy: the native table becomes the new triple, every other key reads as before. */
  lemma {:induction false} NativeMeaning(q: Doc, es: Entries, to: Triple)
    requires PolicyShape(q, es) && SpelledTriple(to)
    ensures SetNative(Print(q), to.commit, to.tree, to.sub) == Some(Print(NewPolicy(q, es, to)))
    ensures Changed(q, NewPolicy(q, es, to), "nativeSource",
                    Table(TableLines(SetTriple(es, to.commit, to.tree, to.sub))))
    ensures PolicyShape(NewPolicy(q, es, to), SetTriple(es, to.commit, to.tree, to.sub))
    ensures AsMap(SetTriple(es, to.commit, to.tree, to.sub)) == TripleMap(to)
  {
    var i, fs := IndexOf(q, "nativeSource"), SetTriple(es, to.commit, to.tree, to.sub);
    NativeTable(es, to);
    NativeIndex(q, es);
    SetNativeUpdates(q, i, es, to.commit, to.tree, to.sub);
    NativeShape(q, i, es, NewPolicy(q, es, to), fs);
  }

  lemma NativeIndex(q: Doc, es: Entries)
    requires PolicyShape(q, es)
    ensures var i := IndexOf(q, "nativeSource");
            i < |q| && q[i] == Member("nativeSource", Table(TableLines(es))) && FirstOfItsName(q, i)
  {
  }

  lemma NativeShape(q: Doc, i: nat, es: Entries, e: Doc, fs: Entries)
    requires PolicyShape(q, es) && WellSpelledEntries(fs) && AsMap(fs).Keys == {"commit", "tree", "submoduleCommit"}
    requires AllDeep(TableLines(fs)) && i == IndexOf(q, "nativeSource")
    requires e == Put(q, "nativeSource", Table(TableLines(fs)))
    ensures Changed(q, e, "nativeSource", Table(TableLines(fs))) && PolicyShape(e, fs)
  {
    PutChanges(q, "nativeSource", Table(TableLines(fs)));
    PolicyShapeKept(q, i, es, e, fs);
  }

  lemma PolicyKeysDiffer()
    ensures "nativeSource" != "sourceCommit" && "nativeSource" != "sourceTree" && "nativeSource" != "sourceCreated"
    ensures "sourceCommit" != "sourceTree" && "sourceCommit" != "sourceCreated" && "sourceTree" != "sourceCreated"
  {
    assert "nativeSource"[0] != "sourceCommit"[0] && "nativeSource"[0] != "sourceTree"[0]
           && "nativeSource"[0] != "sourceCreated"[0];
    assert "sourceCommit"[7] != "sourceTree"[7] && |"sourceCommit"| != |"sourceCreated"|
           && |"sourceTree"| != |"sourceCreated"|;
  }

  // ----- plan_policy -----

  type Digest = Text -> string

  /** `policy['nativeSource']` equals the wanted mapping. */
  ghost predicate NativeIs(q: Doc, want: map<string, string>) {
    exists es :: WellSpelledEntries(es) && At(q, "nativeSource") == Some(Table(TableLines(es))) && AsMap(es) == want
  }

  /** What `plan_policy` tests, for pins committed in `at` and a policy in the working tree. */
  ghost predicate PolicyAccepts(at: Tower, policy: Text, sha: Digest) {
    && Pins in at && Verify in at
    && Load(policy).Some? && Load(at[Pins]).Some?
    && var d := Load(at[Pins]).value;
       && PlainString(At(d, "sourceCommit")) && PlainString(At(d, "sourceTree"))
       && PlainString(At(d, "submoduleCommit"))
       && NativeIs(Load(policy).value, TripleMap(PinnedTriple(d)))
       && FindQuoted(at[Verify], EXPECTED, '\'') == Some(sha(at[Pins]))
  }

  datatype Stamp = Stamp(commit: string, tree: string, created: string)

  /** The three edits `plan_policy` makes once it has accepted. */
  function PolicyText(t: Text, s: Stamp): Option<Text> {
    match SetKey(t, "sourceCommit", s.commit, "  ")
    case None => None
    case Some(a) =>
      match SetKey(a, "sourceTree", s.tree, "  ")
      case None => None
      case Some(b) => SetKey(b, "sourceCreated", s.created, "  ")
  }

  lemma {:induction false} PutPlain(q: Doc, key: string, v: string)
    requires WellFormed(q) && PlainString(At(q, key)) && Spelled(v)
    ensures Changed(q, Put(q, key, Str(v)), key, Str(v))
    ensures SetKey(Print(q), key, v, "  ") == Some(Print(Put(q, key, Str(v))))
  {
    PutChanges(q, key, Str(v));
    SetKeyPuts(q, key, v);
  }

  lemma {:induction false} ThreeChanges(q: Doc, a: Doc, b: Doc, e: Doc, k0: string, k1: string, k2: string, v0: Value,
                                        v1: Value, v2: Value)
    requires k0 != k1 && k0 != k2 && k1 != k2
    requires Changed(q, a, k0, v0) && Changed(a, b, k1, v1) && Changed(b, e, k2, v2)
    ensures WellFormed(e) && At(e, k0) == Some(v0) && At(e, k1) == Some(v1) && At(e, k2) == Some(v2)
    ensures forall key :: key != k0 && key != k1 && key != k2 ==> At(e, key) == At(q, key)
  {
  }

  /** Three plain keys set in turn. */
  lemma {:induction false} ThreePuts(q: Doc, k0: string, k1: string, k2: string, v0: string, v1: string, v2: string,
                                     a: Doc, b: Doc, e: Doc)
    requires k0 != k1 && k0 != k2 && k1 != k2 && Spelled(v0) && Spelled(v1) && Spelled(v2)
    requires WellFormed(q) && PlainString(At(q, k0)) && PlainString(At(q, k1)) && PlainString(At(q, k2))
    requires a == Put(q, k0, Str(v0)) && b == Put(a, k1, Str(v1)) && e == Put(b, k2, Str(v2))
    ensures SetKey(Print(q), k0, v0, "  ") == Some(Print(a)) && SetKey(Print(a), k1, v1, "  ") == Some(Print(b))
    ensures SetKey(Print(b), k2, v2, "  ") == Some(Print(e))
    ensures Changed(q, a, k0, Str(v0)) && Changed(a, b, k1, Str(v1)) && Changed(b, e, k2, Str(v2))
  {
    PutPlain(q, k0, v0);
    PutPlain(a, k1, v1);
    PutPlain(b, k2, v2);
  }

  lemma PolicyTextChain(t: Text, a: Text, b: Text, e: Text, s: Stamp)
    requires SetKey(t, "sourceCommit", s.commit, "  ") == Some(a) && SetKey(a, "sourceTree", s.tree, "  ") == Some(b)
    requires SetKey(b, "sourceCreated", s.created, "  ") == Some(e)
    ensures PolicyText(t, s) == Some(e)
  {
  }

  function Stamped(q: Doc, s: Stamp): Doc {
    Put(Put(Put(q, "sourceCommit", Str(s.commit)), "sourceTree", Str(s.tree)), "sourceCreated", Str(s.created))
  }

  /** They set three keys and leave the native table and everything else. */
  lemma {:induction false} PolicyTextMeaning(q: Doc, es: Entries, s: Stamp)
    requires PolicyShape(q, es) && Spelled(s.commit) && Spelled(s.tree) && Spelled(s.created)
    ensures PolicyText(Print(q), s) == Some(Print(Stamped(q, s))) && WellFormed(Stamped(q, s))
    ensures At(Stamped(q, s), "sourceCommit") == Some(Str(s.commit))
    ensures At(Stamped(q, s), "sourceTree") == Some(Str(s.tree))
    ensures At(Stamped(q, s), "sourceCreated") == Some(Str(s.created))
    ensures forall key :: key != "sourceCommit" && key != "sourceTree" && key != "sourceCreated"
              ==> At(Stamped(q, s), key) == At(q, key)
  {
    PolicyKeysDiffer();
    var a := Put(q, "sourceCommit", Str(s.commit));
    var b := Put(a, "sourceTree", Str(s.tree));
    ThreePuts(q, "sourceCommit", "sourceTree", "sourceCreated", s.commit, s.tree, s.created, a, b, Stamped(q, s));
    ThreeChanges(q, a, b, Stamped(q, s), "sourceCommit", "sourceTree", "sourceCreated", Str(s.commit), Str(s.tree),
                 Str(s.created));
    PolicyTextChain(Print(q), Print(a), Print(b), Print(Stamped(q, s)), s);
  }

  // ----- plan_pins -----

  /** The source checkout at the requested commit; `scanner` lists the tracked files of the scanner crates. */
  datatype Source = Source(commit: string, tree: string, link: Option<string>, files: map<string, Text>,
                           scanner: seq<string>)

  predicate IsScanner(path: string) { "crates/scanner-privileged/" <= path || "crates/scanner-broker/" <= path }

  function Paths(es: Entries): seq<string> { seq(|es|, i requires 0 <= i < |es| => es[i].0) }

  /** Pinned paths outside the scanner crates. */
  function KeptPaths(paths: seq<string>): seq<string> {
    if paths == [] then []
    else KeptPaths(paths[..|paths| - 1]) + if IsScanner(paths[|paths| - 1]) then [] else [paths[|paths| - 1]]
  }

  /** The paths to pin, sorted. */
  function Wanted(paths: seq<string>, scanner: seq<string>): seq<string> { Sort(StrLt, KeptPaths(paths) + scanner) }

  predicate AllPresent(paths: seq<string>, files: map<string, Text>) {
    forall i :: 0 <= i < |paths| ==> paths[i] in files
  }

  function Hashes(paths: seq<string>, files: map<string, Text>, sha: Digest): Entries
    requires AllPresent(paths, files)
  {
    seq(|paths|, i requires 0 <= i < |paths| => (paths[i], sha(files[paths[i]])))
  }

  /** Last component of a path. */
  function Basename(path: string): string
    decreases |path|
  {
    if Find(path, '/') == |path| then path else Basename(path[Find(path, '/') + 1..])
  }

  function Count(names: seq<string>, n: string): nat {
    if names == [] then 0 else Count(names[..|names| - 1], n) + if names[|names| - 1] == n then 1 else 0
  }

  function Basenames(paths: seq<string>): seq<string> {
    seq(|paths|, i requires 0 <= i < |paths| => Basename(paths[i]))
  }

  type Plan = seq<(FileName, Text)>

  /** The fixtures to refresh, in path order; a fixture matched by two paths is refused. */
  function FixturePart(paths: seq<string>, all: seq<string>, files: map<string, Text>,
                       fixtures: set<string>): Option<Plan>
    requires AllPresent(paths, files)
  {
    if paths == [] then Some([])
    else
      var last := paths[|paths| - 1];
      match FixturePart(paths[..|paths| - 1], all, files, fixtures)
      case None => None
      case Some(before) =>
        if Basename(last) !in fixtures then Some(before)
        else if Count(all, Basename(last)) > 1 then None
        else Some(before + [(Fixture(Basename(last)), files[last])])
  }

  type Arguments = Text -> Option<seq<string>>

  /** The digest line rewritten for new pins. */
  function DigestLine(verify: Text, pins: Option<Text>, sha: Digest): Option<Text> {
    if pins.None? then None else Once(SubQuoted(verify, EXPECTED, '\'', sha(pins.value)))
  }

  function Assembled(pins: Option<Text>, verify: Option<Text>, refreshed: Option<Plan>,
                     policy: Option<Text>): Option<Plan> {
    if pins.None? || verify.None? || refreshed.None? || policy.None? then None
    else Some([(Pins, pins.value), (Verify, verify.value)] + refreshed.value + [(Policy, policy.value)])
  }

  /** The plan for given blobs: pins first, then the digest line, then the fixtures, and the policy last. */
  function Fill(tower: Tower, to: Triple, paths: seq<string>, files: map<string, Text>, args: seq<string>,
                fixtures: set<string>, sha: Digest): Option<Plan>
    requires Pins in tower && Verify in tower && Policy in tower && AllPresent(paths, files)
  {
    var pins := PinsText(tower[Pins], to, Hashes(paths, files, sha), args);
    Assembled(pins, DigestLine(tower[Verify], pins, sha), FixturePart(paths, Basenames(paths), files, fixtures),
              SetNative(tower[Policy], to.commit, to.tree, to.sub))
  }

  method FillPlan(tower: Tower, to: Triple, paths: seq<string>, files: map<string, Text>, args: seq<string>,
                  fixtures: set<string>, sha: Digest) returns (plan: Option<Plan>)
    requires Pins in tower && Verify in tower && Policy in tower && AllPresent(paths, files)
    ensures plan == Fill(tower, to, paths, files, args, fixtures, sha)
  {
    var pins := PinsText(tower[Pins], to, Hashes(paths, files, sha), args);
    if pins.None? { return None; }
    var out := [(Pins, pins.value)];
    var verify := DigestLine(tower[Verify], pins, sha);
    if verify.None? { return None; }
    out := out + [(Verify, verify.value)];
    assert out == [(Pins, pins.value), (Verify, verify.value)];
    var refreshed := PlanFixtures(paths, files, fixtures);
    if refreshed.None? { return None; }
    out := out + refreshed.value;
    var policy := SetNative(tower[Policy], to.commit, to.tree, to.sub);
    if policy.None? { return None; }
    return Some(out + [(Policy, policy.value)]);
  }

  /** `plan_pins` for the paths pinned now. */
  function PlanOf(tower: Tower, pinned: seq<string>, source: Source, fixtures: set<string>, sha: Digest,
                  args: Arguments): Option<Plan>
    requires Pins in tower && Verify in tower && Policy in tower
  {
    var paths := Wanted(pinned, source.scanner);
    if source.link.None? || !AllPresent(paths, source.files) || MANIFEST !in paths then None
    else
      match args(source.files[MANIFEST])
      case None => None
      case Some(list) =>
        Fill(tower, Triple(source.commit, source.tree, source.link.value), paths, source.files, list, fixtures, sha)
  }

  /** `plan_pins`: fetch every blob, then fill the plan step by step. */
  method PlanPins(tower: Tower, pinned: seq<string>, source: Source, fixtures: set<string>, sha: Digest,
                  args: Arguments)
    returns (plan: Option<Plan>)
    requires Pins in tower && Verify in tower && Policy in tower
    ensures plan == PlanOf(tower, pinned, source, fixtures, sha, args)
  {
    if source.link.None? { return None; }
    var paths := Wanted(pinned, source.scanner);
    for i := 0 to |paths|
      invariant forall j :: 0 <= j < i ==> paths[j] in source.files
    {
      if paths[i] !in source.files { return None; }
    }
    if MANIFEST !in paths { return None; }
    var list := args(source.files[MANIFEST]);
    if list.None? { return None; }
    plan := FillPlan(tower, Triple(source.commit, source.tree, source.link.value), paths, source.files, list.value,
                     fixtures, sha);
  }

  /** The loop over the fixtures. */
  method PlanFixtures(paths: seq<string>, files: map<string, Text>, fixtures: set<string>) returns (plan: Option<Plan>)
    requires AllPresent(paths, files)
    ensures plan == FixturePart(paths, Basenames(paths), files, fixtures)
  {
    var names := Basenames(paths);
    var out: Plan := [];
    for i := 0 to |paths|
      invariant FixturePart(paths[..i], names, files, fixtures) == Some(out)
    {
      assert paths[..i + 1][..i] == paths[..i];
      var name := Basename(paths[i]);
      if name in fixtures {
        if Count(names, name) > 1 {
          RefusedEarly(paths, i + 1, names, files, fixtures);
          return None;
        }
        out := out + [(Fixture(name), files[paths[i]])];
      }
    }
    assert paths[..|paths|] == paths;
    return Some(out);
  }

  lemma {:induction false} RefusedEarly(paths: seq<string>, i: nat, all: seq<string>, files: map<string, Text>,
                                        fixtures: set<string>)
    requires i <= |paths| && AllPresent(paths, files) && FixturePart(paths[..i], all, files, fixtures).None?
    ensures FixturePart(paths, all, files, fixtures).None?
    decreases |paths| - i
  {
    if i == |paths| {
      assert paths[..i] == paths;
    } else {
      assert paths[..i + 1][..i] == paths[..i];
      RefusedEarly(paths, i + 1, all, files, fixtures);
    }
  }

  // ----- apply -----

  /** The tree after the first entries of a plan have been written. */
  function Written(tower: Tower, plan: Plan): Tower {
    if plan == [] then tower
    else Written(tower, plan[..|plan| - 1])[plan[|plan| - 1].0 := plan[|plan| - 1].1]
  }

  /** Names of the entries that a run finds changed, each when its turn comes; a dry run changes nothing on the way. */
  function Stale(tower: Tower, plan: Plan, write: bool): seq<FileName> {
    if plan == [] then []
    else
      var init, last := plan[..|plan| - 1], plan[|plan| - 1];
      var at := if write then Written(tower, init) else tower;
      Stale(tower, init, write) + if last.0 in at && at[last.0] == last.1 then [] else [last.0]
  }

  /** A run over a tree that holds the plan names and replaces nothing. */
  lemma {:induction false} NothingStale(tower: Tower, plan: Plan, write: bool)
    requires forall i :: 0 <= i < |plan| ==> plan[i].0 in tower && plan[i].1 == tower[plan[i].0]
    ensures Stale(tower, plan, write) == [] && Written(tower, plan) == tower
  {
    if plan != [] {
      var init, last := plan[..|plan| - 1], plan[|plan| - 1];
      assert forall i :: 0 <= i < |init| ==> init[i] == plan[i];
      NothingStale(tower, init, write);
      assert tower[last.0 := last.1] == tower;
    }
  }

  class Checkout {
    var files: Tower
    /** Names that were given a new file, in order. */
    var replaced: seq<FileName>

    constructor (files: Tower)
      ensures this.files == files && replaced == []
    {
      this.files, replaced := files, [];
    }

    /** `replace_file`: the new bytes appear under the name at once. */
    method Replace(path: FileName, data: Text)
      requires path in files
      modifies this
      ensures files == old(files)[path := data] && replaced == old(replaced) + [path]
    {
      files, replaced := files[path := data], replaced + [path];
    }

    /** `apply`, interrupted after `stop` entries: exactly the files that do not hold the planned bytes are named, and
        replaced if the run writes. */
    method Apply(plan: Plan, write: bool, stop: nat) returns (wrote: seq<FileName>)
      requires stop <= |plan| && forall i :: 0 <= i < |plan| ==> plan[i].0 in files
      modifies this
      ensures files == if write then Written(old(files), plan[..stop]) else old(files)
      ensures wrote == Stale(old(files), plan[..stop], write)
      ensures replaced == old(replaced) + if write then wrote else []
      ensures (forall i :: 0 <= i < |plan| ==> plan[i].1 == old(files)[plan[i].0])
          ==> wrote == [] && files == old(files)
    {
      wrote := [];
      ghost var before, earlier := files, replaced;
      assert earlier + [] == earlier;
      for i := 0 to stop
        invariant files == if write then Written(before, plan[..i]) else before
        invariant files.Keys == before.Keys && wrote == Stale(before, plan[..i], write)
        invariant replaced == earlier + if write then wrote else []
      {
        assert plan[..i + 1][..i] == plan[..i];
        var (rel, data) := plan[i];
        if files[rel] == data {
          assert files[rel := data] == files;
          continue;
        }
        wrote := wrote + [rel];
        if write {
          Replace(rel, data);
        }
      }
      if forall i :: 0 <= i < |plan| ==> plan[i].1 == before[plan[i].0] {
        NothingStale(before, plan[..stop], write);
      }
    }
  }
}
