/** Planning again from a finished repin: the same plan, and nothing left to write (ci/repin-snitchwatch.py). */
module RepinAgain {
  import opened Options
  import opened Strings
  import opened PinText
  import opened PinDoc
  import opened Repin
  import opened RepinLanding
  import opened RepinSafety
  import opened Orders

  // ----- Each edit is idempotent -----

  lemma {:induction false} PutSame(d: Doc, key: string, v: Value)
    requires At(d, key) == Some(v)
    ensures Put(d, key, v) == d
  {
    assert d[IndexOf(d, key)] == Member(key, v);
  }

  lemma {:induction false} NewPinsSame(d: Doc, was: Entries, to: Triple, files: Entries, args: seq<string>)
    requires PinsShape(d, was) && SpelledTriple(to) && WellSpelledEntries(files) && AllFlat(args)
    ensures NewPins(NewPins(d, to, files, args), to, files, args) == NewPins(d, to, files, args)
  {
    PinsTextMeaning(d, was, to, files, args);
    var e := NewPins(d, to, files, args);
    NewPinsFixed(e, to, files, args, At(e, "sourceCommit").value.raw, At(e, "sourceTree").value.raw,
                 At(e, "submoduleCommit").value.raw);
  }

  lemma {:induction false} NewPinsFixed(e: Doc, to: Triple, files: Entries, args: seq<string>, a: string, b: string,
                                        c: string)
    requires At(e, "sourceCommit") == Some(Str(a)) && At(e, "sourceTree") == Some(Str(b))
    requires At(e, "submoduleCommit") == Some(Str(c))
    requires to == Triple(a, b, c) && At(e, "sourceFiles") == Some(Table(TableLines(files)))
    requires At(e, "flatpakFinishArgs") == Some(Items(ItemLines(args)))
    ensures NewPins(e, to, files, args) == e
  {
    PutSame(e, "sourceCommit", Str(a));
    PutSame(e, "sourceTree", Str(b));
    PutSame(e, "submoduleCommit", Str(c));
    PutSame(e, "sourceFiles", Table(TableLines(files)));
    PutSame(e, "flatpakFinishArgs", Items(ItemLines(args)));
  }

  lemma {:induction false} SetEntryCommutes(es: Entries, k: string, v: string, m: string, w: string)
    requires k != m
    ensures SetEntry(SetEntry(es, k, v), m, w) == SetEntry(SetEntry(es, m, w), k, v)
  {
  }

  lemma {:induction false} SetEntryTwice(es: Entries, k: string, v: string)
    ensures SetEntry(SetEntry(es, k, v), k, v) == SetEntry(es, k, v)
  {
  }

  lemma {:induction false} SetThreeTwice(es: Entries, k0: string, k1: string, k2: string, v0: string, v1: string,
                                         v2: string)
    requires k0 != k1 && k0 != k2 && k1 != k2
    ensures var fs := SetEntry(SetEntry(SetEntry(es, k0, v0), k1, v1), k2, v2);
            SetEntry(SetEntry(SetEntry(fs, k0, v0), k1, v1), k2, v2) == fs
  {
    var a := SetEntry(es, k0, v0);
    var b := SetEntry(a, k1, v1);
    var fs := SetEntry(b, k2, v2);
    SetEntryCommutes(b, k2, v2, k0, v0);
    SetEntryCommutes(a, k1, v1, k0, v0);
    SetEntryTwice(es, k0, v0);
    assert SetEntry(fs, k0, v0) == fs;
    SetEntryCommutes(b, k2, v2, k1, v1);
    SetEntryTwice(a, k1, v1);
    SetEntryTwice(b, k2, v2);
  }

  lemma {:induction false} NewPolicySame(q: Doc, es: Entries, to: Triple)
    requires PolicyShape(q, es) && SpelledTriple(to)
    ensures var fs := SetTriple(es, to.commit, to.tree, to.sub);
            NewPolicy(NewPolicy(q, es, to), fs, to) == NewPolicy(q, es, to)
  {
    var fs := SetTriple(es, to.commit, to.tree, to.sub);
    NativeMeaning(q, es, to);
    assert "commit" != "tree" && "commit" != "submoduleCommit" && "tree" != "submoduleCommit";
    SetThreeTwice(es, "commit", "tree", "submoduleCommit", to.commit, to.tree, to.sub);
    PutSame(NewPolicy(q, es, to), "nativeSource", Table(TableLines(fs)));
  }

  lemma {:induction false} CutRejoined(rest: Text, u: Text)
    requires Cut(rest) < |rest| || u == ""
    ensures Cut(rest[..Cut(rest)] + u) == Cut(rest)
    ensures (rest[..Cut(rest)] + u)[..Cut(rest)] == rest[..Cut(rest)] && (rest[..Cut(rest)] + u)[Cut(rest)..] == u
  {
    if rest != "" { CutKept(rest, u); } else { assert rest[..Cut(rest)] + u == ""; }
  }

  lemma {:induction false} SubNothing(t: Text, prefix: string, q: char, v: string)
    requires prefix != "" && SubQuoted(t, prefix, q, v).count == 0
    ensures SubQuoted(t, prefix, q, v).text == t
    decreases |t|
  {
    if t != "" {
      var n := Cut(t);
      SubUnmatched(t, prefix, q, v, n);
      SubNothing(t[n..], prefix, q, v);
      assert t[..n] + t[n..] == t;
    }
  }

  lemma {:induction false} SubUnmatched(t: Text, prefix: string, q: char, v: string, n: nat)
    requires prefix != "" && t != "" && n == Cut(t) && SubQuoted(t, prefix, q, v).count == 0
    ensures SubQuoted(t[n..], prefix, q, v).count == 0
    ensures SubQuoted(t, prefix, q, v).text == t[..n] + SubQuoted(t[n..], prefix, q, v).text
  {
  }

  lemma Regrouped(a: Text, b: Text, c: Text, own: Text, u: Text)
    ensures a + b + c + own + u == a + ((b + c) + (own + u))
    ensures (a + ((b + c) + (own + u)))[|a|..] == (b + c) + (own + u)
    ensures ((b + c) + (own + u))[|b + c|..] == own + u
    ensures (own + u)[|own|..] == u && (own + u)[..|own|] == own
  {
  }

  lemma {:induction false} SubHitAgain(s: Text, own: Text, u: Text, prefix: string, q: char, v: string)
    requires prefix != "" && Find(v + [q], q) == |v| && s == prefix + v + [q] + own + u && Cut(own + u) == |own|
    requires SubQuoted(u, prefix, q, v).text == u
    ensures SubQuoted(s, prefix, q, v) == Edit(s, SubQuoted(u, prefix, q, v).count + 1)
  {
    Regrouped(prefix, v, [q], own, u);
    FindExtended(v + [q], own + u, q);
    SubHitWith(s, own, u, prefix, q, v, (v + [q]) + (own + u));
  }

  lemma {:induction false} SubHitWith(s: Text, own: Text, u: Text, prefix: string, q: char, v: string, w: Text)
    requires prefix != "" && prefix <= s && w == s[|prefix|..] && Find(w, q) == |v| < |w| && w[|v| + 1..] == own + u
    requires Cut(own + u) == |own| && (own + u)[|own|..] == u && (own + u)[..|own|] == own
    requires SubQuoted(u, prefix, q, v).text == u && s == prefix + v + [q] + own + u
    ensures SubQuoted(s, prefix, q, v) == Edit(s, SubQuoted(u, prefix, q, v).count + 1)
  {
    SubStep(s, prefix, q, v, w, own + u);
  }

  predicate Matches(t: Text, prefix: string, q: char) { prefix <= t && Find(t[|prefix|..], q) < |t| - |prefix| }

  lemma {:induction false} SubMissAgain(own: Text, u: Text, prefix: string, q: char, v: string)
    requires prefix != "" && own + u != "" && Cut(own + u) == |own| && !Matches(own + u, prefix, q)
    requires SubQuoted(u, prefix, q, v).text == u
    ensures SubQuoted(own + u, prefix, q, v) == Edit(own + u, SubQuoted(u, prefix, q, v).count)
  {
    assert (own + u)[|own|..] == u && (own + u)[..|own|] == own;
  }

  lemma {:induction false} MissMissesAgain(t: Text, prefix: string, q: char, v: string)
    requires prefix != "" && Flat(prefix) && prefix[|prefix| - 1] == q && t != "" && !Matches(t, prefix, q)
    ensures !Matches(t[..Cut(t)] + SubQuoted(t[Cut(t)..], prefix, q, v).text, prefix, q)
  {
    var n := Cut(t);
    if prefix <= t {
      CutPastPrefix(t, prefix);
      assert Without(t[n..], q) by {
        forall i | 0 <= i < |t[n..]| ensures t[n..][i] != q { assert t[n..][i] == t[|prefix|..][n - |prefix| + i]; }
      }
      NothingToReplace(t[n..], prefix, q, v);
      SubNothing(t[n..], prefix, q, v);
      assert t[..n] + t[n..] == t;
    } else if n < |t| {
      MissStays(t, SubQuoted(t[n..], prefix, q, v).text, prefix);
    } else {
      assert t[..n] + "" == t;
    }
  }

  /** Replacing the quoted value again finds the same places and changes nothing. */
  lemma {:induction false} SubQuotedTwice(t: Text, prefix: string, q: char, v: string)
    requires prefix != "" && Flat(prefix) && prefix[|prefix| - 1] == q && Find(v + [q], q) == |v|
    ensures SubQuoted(SubQuoted(t, prefix, q, v).text, prefix, q, v) == SubQuoted(t, prefix, q, v)
    decreases |t|
  {
    if t == "" {
    } else if Matches(t, prefix, q) {
      var rest := t[|prefix|..][Find(t[|prefix|..], q) + 1..];
      SubStep(t, prefix, q, v, t[|prefix|..], rest);
      var more := SubQuoted(rest[Cut(rest)..], prefix, q, v);
      SubQuotedTwice(rest[Cut(rest)..], prefix, q, v);
      CutRejoined(rest, more.text);
      SubHitAgain(SubQuoted(t, prefix, q, v).text, rest[..Cut(rest)], more.text, prefix, q, v);
    } else {
      var n := Cut(t);
      var more := SubQuoted(t[n..], prefix, q, v);
      assert SubQuoted(t, prefix, q, v) == Edit(t[..n] + more.text, more.count);
      SubQuotedTwice(t[n..], prefix, q, v);
      MissMissesAgain(t, prefix, q, v);
      CutRejoined(t, more.text);
      SubMissAgain(t[..n], more.text, prefix, q, v);
    }
  }

  // ----- A fixture is written once -----

  lemma {:induction false} CountSeen(names: seq<string>, j: nat)
    requires j < |names|
    ensures Count(names, names[j]) >= 1
  {
    if j < |names| - 1 { CountSeen(names[..|names| - 1], j); }
  }

  lemma {:induction false} CountTwice(names: seq<string>, j: nat, k: nat)
    requires j < k < |names| && names[j] == names[k]
    ensures Count(names, names[k]) >= 2
  {
    var init := names[..|names| - 1];
    if k < |init| { CountTwice(init, j, k); } else { CountSeen(init, j); }
  }

  /** Entry `i` of the fixture part comes from some path before `n`. */
  ghost predicate FromBefore(part: Plan, paths: seq<string>, n: nat) {
    forall i :: 0 <= i < |part| ==> exists j :: 0 <= j < n <= |paths| && part[i].0 == Fixture(Basename(paths[j]))
  }

  ghost predicate NamesDistinct(plan: Plan) { forall i, j :: 0 <= i < j < |plan| ==> plan[i].0 != plan[j].0 }

  /** No fixture appears twice: a name shared by two paths is refused. */
  lemma {:induction false} FixturesDistinct(paths: seq<string>, n: nat, files: map<string, Text>, fixtures: set<string>)
    requires n <= |paths| && AllPresent(paths, files)
    requires FixturePart(paths[..n], Basenames(paths), files, fixtures).Some?
    ensures NamesDistinct(FixturePart(paths[..n], Basenames(paths), files, fixtures).value)
    ensures FromBefore(FixturePart(paths[..n], Basenames(paths), files, fixtures).value, paths, n)
  {
    if n > 0 {
      assert paths[..n][..n - 1] == paths[..n - 1] && paths[..n][n - 1] == paths[n - 1];
      FixturesDistinct(paths, n - 1, files, fixtures);
      var before := FixturePart(paths[..n - 1], Basenames(paths), files, fixtures).value;
      var name := Basename(paths[n - 1]);
      if name in fixtures {
        forall i | 0 <= i < |before| ensures before[i].0 != Fixture(name) {
          var j :| 0 <= j < n - 1 && before[i].0 == Fixture(Basename(paths[j]));
          if Basename(paths[j]) == name { CountTwice(Basenames(paths), j, n - 1); }
        }
      }
    }
  }

  lemma {:induction false} OrderedDistinct(plan: Plan)
    requires Ordered(plan) && NamesDistinct(plan[2..|plan| - 1])
    ensures NamesDistinct(plan)
  {
    var mid := plan[2..|plan| - 1];
    forall i, j | 0 <= i < j < |plan| ensures plan[i].0 != plan[j].0 {
      if 2 <= i && j < |plan| - 1 {
        assert mid[i - 2] == plan[i] && mid[j - 2] == plan[j];
      }
    }
  }

  // ----- The finished tree -----

  ghost predicate Holds(tower: Tower, plan: Plan) {
    forall i :: 0 <= i < |plan| ==> plan[i].0 in tower && plan[i].1 == tower[plan[i].0]
  }

  lemma {:induction false} WrittenInFull(tower: Tower, plan: Plan)
    requires NamesDistinct(plan)
    ensures Holds(Written(tower, plan), plan)
  {
    forall i | 0 <= i < |plan|
      ensures plan[i].0 in Written(tower, plan) && plan[i].1 == Written(tower, plan)[plan[i].0] {
      WrittenHolds(tower, plan, i);
    }
  }

  /** The tree does not hold the entry's bytes under its name. */
  predicate Lacks(tower: Tower, entry: (FileName, Text)) { !(entry.0 in tower && tower[entry.0] == entry.1) }

  ghost predicate Pending(tower: Tower, plan: Plan, name: FileName) {
    exists entry :: entry in plan && entry.0 == name && Lacks(tower, entry)
  }

  lemma {:induction false} PendingMore(tower: Tower, init: Plan, last: (FileName, Text), name: FileName)
    ensures Pending(tower, init + [last], name) <==>
            Pending(tower, init, name) || (last.0 == name && Lacks(tower, last))
  {
    var plan := init + [last];
    assert forall entry :: entry in plan <==> entry in init || entry == last;
    if Pending(tower, init, name) {
      var entry :| entry in init && entry.0 == name && Lacks(tower, entry);
      assert entry in plan;
    }
    if last.0 == name && Lacks(tower, last) { assert last in plan; }
  }

  lemma {:induction false} StalePending(tower: Tower, plan: Plan, name: FileName)
    ensures name in Stale(tower, plan, false) <==> Pending(tower, plan, name)
  {
    if plan != [] {
      var init, last := plan[..|plan| - 1], plan[|plan| - 1];
      assert plan == init + [last];
      StalePending(tower, init, name);
      PendingMore(tower, init, last, name);
    }
  }

  lemma NamesBefore(plan: Plan)
    requires NamesDistinct(plan) && plan != []
    ensures NamesDistinct(plan[..|plan| - 1]) && Untouched(plan[..|plan| - 1], plan[|plan| - 1].0)
  {
  }

  lemma {:induction false} StaleEither(tower: Tower, plan: Plan)
    requires NamesDistinct(plan) && forall entry :: entry in plan ==> entry.0 in tower
    ensures Stale(tower, plan, true) == Stale(tower, plan, false)
  {
    if plan != [] {
      var init, last := plan[..|plan| - 1], plan[|plan| - 1];
      NamesBefore(plan);
      assert last in plan && forall entry :: entry in init ==> entry in plan;
      StaleEither(tower, init);
      WrittenKeeps(tower, init, last.0);
    }
  }

  /** What a run replaces, and what a dry run announces, are both exactly the planned files that the tree does not hold
      as planned, so a dry run names what a writing run replaces, in the same order. */
  lemma {:induction false} DryRunAnnounces(tower: Tower, plan: Plan)
    requires NamesDistinct(plan) && forall entry :: entry in plan ==> entry.0 in tower
    ensures Stale(tower, plan, true) == Stale(tower, plan, false)
    ensures forall name :: name in Stale(tower, plan, true) <==> Pending(tower, plan, name)
  {
    StaleEither(tower, plan);
    forall name ensures name in Stale(tower, plan, false) <==> Pending(tower, plan, name) {
      StalePending(tower, plan, name);
    }
  }

  lemma {:induction false} DigestLineTwice(verify: Text, pins: Text, sha: Digest)
    requires DigestLine(verify, Some(pins), sha).Some? && PlainDigest(sha)
    ensures DigestLine(DigestLine(verify, Some(pins), sha).value, Some(pins), sha)
         == DigestLine(verify, Some(pins), sha)
  {
    ExpectedShape();
    assert Plain(sha(pins));
    SubQuotedTwice(verify, EXPECTED, '\'', sha(pins));
  }

  lemma HeldTexts(at: Tower, plan: Plan)
    requires Holds(at, plan) && Ordered(plan)
    ensures Pins in at && Verify in at && Policy in at
    ensures at[Pins] == plan[0].1 && at[Verify] == plan[1].1 && at[Policy] == plan[|plan| - 1].1
  {
    assert plan[0].0 in at && plan[1].0 in at && plan[|plan| - 1].0 in at;
  }

  lemma {:induction false} PinsAgain(d: Doc, was: Entries, to: Triple, hashes: Entries, args: seq<string>)
    requires PinsShape(d, was) && SpelledTriple(to) && WellSpelledEntries(hashes) && AllFlat(args)
    ensures PinsText(Print(d), to, hashes, args) == Some(Print(NewPins(d, to, hashes, args)))
    ensures PinsText(Print(NewPins(d, to, hashes, args)), to, hashes, args) == Some(Print(NewPins(d, to, hashes, args)))
  {
    PinsTextMeaning(d, was, to, hashes, args);
    PinsTextMeaning(NewPins(d, to, hashes, args), hashes, to, hashes, args);
    NewPinsSame(d, was, to, hashes, args);
  }

  lemma {:induction false} NativeAgain(q: Doc, es: Entries, to: Triple)
    requires PolicyShape(q, es) && SpelledTriple(to)
    ensures SetNative(Print(q), to.commit, to.tree, to.sub) == Some(Print(NewPolicy(q, es, to)))
    ensures SetNative(Print(NewPolicy(q, es, to)), to.commit, to.tree, to.sub) == Some(Print(NewPolicy(q, es, to)))
  {
    NativeMeaning(q, es, to);
    NativeMeaning(NewPolicy(q, es, to), SetTriple(es, to.commit, to.tree, to.sub), to);
    NewPolicySame(q, es, to);
  }

  lemma AssembledSame(pins: Option<Text>, verify: Option<Text>, part: Option<Plan>, policy: Option<Text>, plan: Plan)
    requires Assembled(pins, verify, part, policy) == Some(plan)
    ensures pins.Some? && verify.Some? && part.Some? && policy.Some? && |plan| >= 3
    ensures plan[0] == (Pins, pins.value) && plan[1] == (Verify, verify.value)
    ensures plan[|plan| - 1] == (Policy, policy.value)
    ensures plan[2..|plan| - 1] == part.value
  {
  }

  /** A filled plan, filled again from a tree that holds it, is the same plan. */
  lemma {:induction false} FillAgain(tower: Tower, d: Doc, was: Entries, q: Doc, es: Entries, to: Triple,
                                     paths: seq<string>, files: map<string, Text>, args: seq<string>,
                                     fixtures: set<string>, sha: Digest, plan: Plan, at: Tower)
    requires Consistent(tower, d, was, q, es, sha) && PlainDigest(sha) && AllPresent(paths, files)
    requires PlainSource(to, paths, args)
    requires Fill(tower, to, paths, files, args, fixtures, sha) == Some(plan) && Holds(at, plan)
    ensures Pins in at && Verify in at && Policy in at
    ensures Fill(at, to, paths, files, args, fixtures, sha) == Some(plan)
  {
    var hashes := Hashes(paths, files, sha);
    HashesSpelled(paths, files, sha);
    PinsAgain(d, was, to, hashes, args);
    NativeAgain(q, es, to);
    var pins := Print(NewPins(d, to, hashes, args));
    var verify := DigestLine(tower[Verify], Some(pins), sha);
    var part := FixturePart(paths, Basenames(paths), files, fixtures);
    var policy := Print(NewPolicy(q, es, to));
    assert Assembled(Some(pins), verify, part, Some(policy)) == Some(plan);
    AssembledSame(Some(pins), verify, part, Some(policy), plan);
    FixturesOnly(paths, Basenames(paths), files, fixtures);
    AssembledOrder(pins, verify.value, part.value, policy, plan);
    HeldTexts(at, plan);
    DigestLineTwice(tower[Verify], pins, sha);
  }

  lemma {:induction false} FilledDistinct(tower: Tower, to: Triple, paths: seq<string>, files: map<string, Text>,
                                          args: seq<string>, fixtures: set<string>, sha: Digest, plan: Plan)
    requires Pins in tower && Verify in tower && Policy in tower && AllPresent(paths, files)
    requires Fill(tower, to, paths, files, args, fixtures, sha) == Some(plan)
    ensures NamesDistinct(plan)
  {
    var pins := PinsText(tower[Pins], to, Hashes(paths, files, sha), args);
    var verify := DigestLine(tower[Verify], pins, sha);
    var part := FixturePart(paths, Basenames(paths), files, fixtures);
    var policy := SetNative(tower[Policy], to.commit, to.tree, to.sub);
    AssembledSame(pins, verify, part, policy, plan);
    FixturesOnly(paths, Basenames(paths), files, fixtures);
    assert paths[..|paths|] == paths;
    FixturesDistinct(paths, |paths|, files, fixtures);
    AssembledOrder(pins.value, verify.value, part.value, policy.value, plan);
    OrderedDistinct(plan);
  }

  /** Planning again from the finished tree gives the same plan, and the tree already holds every byte of it. */
  lemma {:induction false} FinishedIsStable(tower: Tower, d: Doc, was: Entries, q: Doc, es: Entries, source: Source,
                                            fixtures: set<string>, sha: Digest, args: Arguments, plan: Plan)
    requires Consistent(tower, d, was, q, es, sha) && PlainDigest(sha) && Feeds(source, args)
    requires PlanOf(tower, Paths(was), source, fixtures, sha, args) == Some(plan)
    ensures var at, paths := Written(tower, plan), Wanted(Paths(was), source.scanner);
            && Holds(at, plan) && Pins in at && Verify in at && Policy in at
            && AllPresent(paths, source.files)
            && var hashes := Hashes(paths, source.files, sha);
               && (exists e :: at[Pins] == Print(e) && PinsShape(e, hashes) && PinnedTriple(e) == Target(source))
               && Paths(hashes) == paths
               && PlanOf(at, Paths(hashes), source, fixtures, sha, args) == Some(plan)
  {
    var at, paths := Written(tower, plan), Wanted(Paths(was), source.scanner);
    PlanFills(tower, was, source, fixtures, sha, args, plan);
    var list, to, hashes := args(source.files[MANIFEST]).value, Target(source), Hashes(paths, source.files, sha);
    FilledDistinct(tower, to, paths, source.files, list, fixtures, sha, plan);
    WrittenInFull(tower, plan);
    FillAgain(tower, d, was, q, es, to, paths, source.files, list, fixtures, sha, plan, at);
    HashesSpelled(paths, source.files, sha);
    PathsDistinct(was);
    WantedStable(Paths(was), source.scanner);
    PinsTextMeaning(d, was, to, hashes, list);
    FillShape(tower, d, was, q, es, to, paths, source.files, list, fixtures, sha, plan);
    assert at[plan[0].0] == plan[0].1;
  }
}
