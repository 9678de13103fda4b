/** Why a half-landed repin is refused and a finished one is stable (ci/repin-snitchwatch.py). */
module RepinSafety {
  import opened Options
  import opened Strings
  import opened PinText
  import opened PinDoc
  import opened Repin
  import opened RepinLanding
  import opened Orders

  // ----- What plan_policy decides on well-shaped files -----

  lemma TripleMapInjective(a: Triple, b: Triple)
    requires TripleMap(a) == TripleMap(b)
    ensures a == b
  {
    assert "commit" != "tree" && "commit" != "submoduleCommit" && "tree" != "submoduleCommit";
    assert TripleMap(a)["commit"] == TripleMap(b)["commit"];
    assert TripleMap(a)["tree"] == TripleMap(b)["tree"];
    assert TripleMap(a)["submoduleCommit"] == TripleMap(b)["submoduleCommit"];
  }

  lemma {:induction false} NativeReads(q: Doc, es: Entries, want: map<string, string>)
    requires PolicyShape(q, es)
    ensures NativeIs(q, want) <==> AsMap(es) == want
  {
    if NativeIs(q, want) {
      var fs :| WellSpelledEntries(fs) && At(q, "nativeSource") == Some(Table(TableLines(fs))) && AsMap(fs) == want;
      TableLinesInjective(es, fs);
    }
  }

  /** The test of `plan_policy` on well-shaped files: the triples agree and the digest line names these pins. */
  lemma {:induction false} AcceptsExactly(at: Tower, d: Doc, files: Entries, q: Doc, es: Entries, x: string,
                                          sha: Digest)
    requires Pins in at && Verify in at && at[Pins] == Print(d) && PinsShape(d, files) && PolicyShape(q, es)
    requires FindQuoted(at[Verify], EXPECTED, '\'') == Some(x)
    ensures PolicyAccepts(at, Print(q), sha) <==> AsMap(es) == TripleMap(PinnedTriple(d)) && x == sha(Print(d))
  {
    LoadPrinted(d);
    LoadPrinted(q);
    NativeReads(q, es, TripleMap(PinnedTriple(d)));
  }

  // ----- The tree after the first writes -----

  ghost predicate Untouched(plan: Plan, name: FileName) { forall i :: 0 <= i < |plan| ==> plan[i].0 != name }

  lemma {:induction false} WrittenKeeps(tower: Tower, plan: Plan, name: FileName)
    requires name in tower && Untouched(plan, name)
    ensures name in Written(tower, plan) && Written(tower, plan)[name] == tower[name]
  {
    if plan != [] {
      WrittenKeeps(tower, plan[..|plan| - 1], name);
    }
  }

  lemma {:induction false} WrittenHolds(tower: Tower, plan: Plan, i: nat)
    requires i < |plan| && forall j :: i < j < |plan| ==> plan[j].0 != plan[i].0
    ensures plan[i].0 in Written(tower, plan) && Written(tower, plan)[plan[i].0] == plan[i].1
  {
    if i < |plan| - 1 {
      WrittenHolds(tower, plan[..|plan| - 1], i);
      assert plan[|plan| - 1].0 != plan[i].0;
    }
  }

  ghost predicate OnlyFixtures(plan: Plan) { forall i :: 0 <= i < |plan| ==> plan[i].0.Fixture? }

  lemma {:induction false} FixturesOnly(paths: seq<string>, all: seq<string>, files: map<string, Text>,
                                        fixtures: set<string>)
    requires AllPresent(paths, files) && FixturePart(paths, all, files, fixtures).Some?
    ensures OnlyFixtures(FixturePart(paths, all, files, fixtures).value)
  {
    if paths != [] {
      FixturesOnly(paths[..|paths| - 1], all, files, fixtures);
    }
  }

  /** The write order: pins, digest line, fixtures, policy. */
  ghost predicate Ordered(plan: Plan) {
    && |plan| >= 3 && plan[0].0 == Pins && plan[1].0 == Verify && plan[|plan| - 1].0 == Policy
    && forall i :: 2 <= i < |plan| - 1 ==> plan[i].0.Fixture?
  }

  lemma {:induction false} FileAfter(tower: Tower, plan: Plan, k: nat, i: nat)
    requires Ordered(plan) && k <= |plan| && i in {0, 1, |plan| - 1} && plan[i].0 in tower
    ensures plan[i].0 in Written(tower, plan[..k])
    ensures Written(tower, plan[..k])[plan[i].0] == if i < k then plan[i].1 else tower[plan[i].0]
  {
    assert forall j :: 0 <= j < |plan| && j != i ==> plan[j].0 != plan[i].0;
    if i < k {
      WrittenHolds(tower, plan[..k], i);
    } else {
      WrittenKeeps(tower, plan[..k], plan[i].0);
    }
  }

  // ----- The plan in terms of the documents -----

  /** A consistent start: the policy names the pinned triple and the digest line names the pins. */
  ghost predicate Consistent(tower: Tower, d: Doc, was: Entries, q: Doc, es: Entries, sha: Digest) {
    && Pins in tower && Verify in tower && Policy in tower
    && tower[Pins] == Print(d) && PinsShape(d, was)
    && tower[Policy] == Print(q) && PolicyShape(q, es)
    && AsMap(es) == TripleMap(PinnedTriple(d))
    && FindQuoted(tower[Verify], EXPECTED, '\'') == Some(sha(Print(d)))
  }

  predicate Plain(v: string) { Spelled(v) && Find(v + ['\''], '\'') == |v| }

  /** Digests are written without quotes or line breaks. */
  ghost predicate PlainDigest(sha: Digest) { forall t :: Plain(sha(t)) }

  /** What git and the manifest hand over: object names and paths without quotes, arguments without line breaks. */
  ghost predicate PlainSource(to: Triple, paths: seq<string>, args: seq<string>) {
    && SpelledTriple(to) && paths != [] && Distinct(paths)
    && (forall i :: 0 <= i < |paths| ==> Spelled(paths[i]))
    && AllFlat(args)
  }

  lemma {:induction false} HashesSpelled(paths: seq<string>, files: map<string, Text>, sha: Digest)
    requires AllPresent(paths, files) && paths != [] && Distinct(paths) && PlainDigest(sha)
    requires forall i :: 0 <= i < |paths| ==> Spelled(paths[i])
    ensures WellSpelledEntries(Hashes(paths, files, sha)) && Paths(Hashes(paths, files, sha)) == paths
  {
    forall i | 0 <= i < |paths|
      ensures Spelled(Hashes(paths, files, sha)[i].0) && Spelled(Hashes(paths, files, sha)[i].1) {
      assert Plain(sha(files[paths[i]]));
    }
  }

  ghost predicate PlanShape(plan: Plan, d: Doc, q: Doc, es: Entries, to: Triple, hashes: Entries, args: seq<string>,
                            sha: Digest) {
    && Ordered(plan)
    && plan[0].1 == Print(NewPins(d, to, hashes, args))
    && FindQuoted(plan[1].1, EXPECTED, '\'') == Some(sha(plan[0].1))
    && plan[|plan| - 1].1 == Print(NewPolicy(q, es, to))
  }

  lemma ExpectedShape()
    ensures EXPECTED != "" && Flat(EXPECTED) && EXPECTED[|EXPECTED| - 1] == '\''
  {
  }

  lemma AssembledOrder(pins: Text, verify: Text, refreshed: Plan, policy: Text, plan: Plan)
    requires Assembled(Some(pins), Some(verify), Some(refreshed), Some(policy)) == Some(plan) && OnlyFixtures(refreshed)
    ensures Ordered(plan) && plan[0].1 == pins && plan[1].1 == verify && plan[|plan| - 1].1 == policy
    ensures plan[2..|plan| - 1] == refreshed
  {
  }

  lemma {:induction false} DigestLineFound(verify: Text, pins: Text, sha: Digest)
    requires DigestLine(verify, Some(pins), sha).Some? && PlainDigest(sha)
    ensures FindQuoted(DigestLine(verify, Some(pins), sha).value, EXPECTED, '\'') == Some(sha(pins))
  {
    ExpectedShape();
    assert Plain(sha(pins));
    FindReplaced(verify, EXPECTED, '\'', sha(pins));
  }

  lemma {:induction false} FillShape(tower: Tower, d: Doc, was: Entries, q: Doc, es: Entries, to: Triple,
                                     paths: seq<string>, files: map<string, Text>, args: seq<string>,
                                     fixtures: set<string>, sha: Digest, plan: Plan)
    requires Consistent(tower, d, was, q, es, sha) && PlainDigest(sha) && AllPresent(paths, files)
    requires PlainSource(to, paths, args)
    requires Fill(tower, to, paths, files, args, fixtures, sha) == Some(plan)
    ensures PlanShape(plan, d, q, es, to, Hashes(paths, files, sha), args, sha)
  {
    HashesSpelled(paths, files, sha);
    PinsTextMeaning(d, was, to, Hashes(paths, files, sha), args);
    NativeMeaning(q, es, to);
    FixturesOnly(paths, Basenames(paths), files, fixtures);
    var pins := Print(NewPins(d, to, Hashes(paths, files, sha), args));
    DigestLineFound(tower[Verify], pins, sha);
    AssembledOrder(pins, DigestLine(tower[Verify], Some(pins), sha).value,
                   FixturePart(paths, Basenames(paths), files, fixtures).value, Print(NewPolicy(q, es, to)), plan);
  }

  /** The three files the second command reads, after the first `k` writes. */
  ghost predicate StateAfter(at: Tower, k: nat, last: bool, pins: Text, newPins: Text, policy: Text, newPolicy: Text,
                             sha: Digest) {
    && Pins in at && Verify in at && Policy in at
    && at[Pins] == (if k >= 1 then newPins else pins)
    && FindQuoted(at[Verify], EXPECTED, '\'') == Some(sha(if k >= 2 then newPins else pins))
    && at[Policy] == if last then newPolicy else policy
  }

  lemma {:induction false} StateReached(tower: Tower, plan: Plan, k: nat, sha: Digest)
    requires Pins in tower && Verify in tower && Policy in tower && k <= |plan| && Ordered(plan)
    requires FindQuoted(tower[Verify], EXPECTED, '\'') == Some(sha(tower[Pins]))
    requires FindQuoted(plan[1].1, EXPECTED, '\'') == Some(sha(plan[0].1))
    ensures StateAfter(Written(tower, plan[..k]), k, k == |plan|, tower[Pins], plan[0].1, tower[Policy],
                       plan[|plan| - 1].1, sha)
  {
    FileAfter(tower, plan, k, 0);
    FileAfter(tower, plan, k, 1);
    FileAfter(tower, plan, k, |plan| - 1);
  }

  /** The decision on each such state, for old and new documents that carry the old and new triples. */
  lemma {:induction false} Decided(at: Tower, k: nat, last: bool, d: Doc, f: Entries, e: Doc, g: Entries, q: Doc,
                                   qs: Entries, r: Doc, rs: Entries, sha: Digest)
    requires StateAfter(at, k, last, Print(d), Print(e), Print(q), Print(r), sha) && (last ==> k >= 2)
    requires PinsShape(d, f) && PinsShape(e, g) && PolicyShape(q, qs) && PolicyShape(r, rs)
    requires AsMap(qs) == TripleMap(PinnedTriple(d)) && AsMap(rs) == TripleMap(PinnedTriple(e))
    ensures PolicyAccepts(at, at[Policy], sha) <==>
            k == 0 || last || (PinnedTriple(e) == PinnedTriple(d) && (k >= 2 || sha(Print(e)) == sha(Print(d))))
  {
    var (d1, f1) := if k >= 1 then (e, g) else (d, f);
    var (q1, s1) := if last then (r, rs) else (q, qs);
    AcceptsExactly(at, d1, f1, q1, s1, sha(Print(if k >= 2 then e else d)), sha);
    if TripleMap(PinnedTriple(e)) == TripleMap(PinnedTriple(d)) {
      TripleMapInjective(PinnedTriple(e), PinnedTriple(d));
    }
  }

  // ----- The paths to pin -----

  lemma {:induction false} KeptExactly(paths: seq<string>)
    ensures forall p :: p in KeptPaths(paths) <==> p in paths && !IsScanner(p)
    ensures Distinct(paths) ==> Distinct(KeptPaths(paths))
  {
    if paths != [] {
      var n := |paths| - 1;
      KeptExactly(paths[..n]);
      assert paths == paths[..n] + [paths[n]];
      assert Distinct(paths) ==> paths[n] !in paths[..n];
    }
  }

  ghost predicate AllScanner(scanner: seq<string>) { forall p :: p in scanner ==> IsScanner(p) }

  /** The pinned paths afterwards: the old ones outside the scanner crates and every scanner path, in order. */
  lemma {:induction false} WantedExactly(pinned: seq<string>, scanner: seq<string>)
    requires Distinct(pinned) && Distinct(scanner) && AllScanner(scanner)
    ensures StrictlySorted(StrLt, Wanted(pinned, scanner)) && Distinct(Wanted(pinned, scanner))
    ensures forall p :: p in Wanted(pinned, scanner) <==> (p in pinned && !IsScanner(p)) || p in scanner
  {
    KeptExactly(pinned);
    var kept := KeptPaths(pinned);
    forall i, j | 0 <= i < j < |kept + scanner| ensures (kept + scanner)[i] != (kept + scanner)[j] {
      assert j >= |kept| ==> (kept + scanner)[j] in scanner;
      assert i < |kept| ==> (kept + scanner)[i] in kept;
    }
    StrTotal();
    SortSorts(StrLt, kept + scanner);
    StrictlySortedDistinct(StrLt, Wanted(pinned, scanner));
  }

  /** Planning again from the new paths asks for the same paths. */
  lemma {:induction false} WantedStable(pinned: seq<string>, scanner: seq<string>)
    requires Distinct(pinned) && Distinct(scanner) && AllScanner(scanner)
    ensures Wanted(Wanted(pinned, scanner), scanner) == Wanted(pinned, scanner)
  {
    var once := Wanted(pinned, scanner);
    WantedExactly(pinned, scanner);
    WantedExactly(once, scanner);
    StrTotal();
    SortedUnique(StrLt, Wanted(once, scanner), once);
  }

  // ----- Half-landed plans -----

  function Target(source: Source): Triple {
    Triple(source.commit, source.tree, if source.link.Some? then source.link.value else "")
  }

  ghost predicate AllSpelled(paths: seq<string>) { forall p :: p in paths ==> Spelled(p) }

  ghost predicate PlainArguments(list: Option<seq<string>>) {
    list.Some? ==> AllFlat(list.value)
  }

  /** The checkout hands over plain object names and paths, and arguments without line breaks. */
  ghost predicate Feeds(source: Source, args: Arguments) {
    && SpelledTriple(Target(source))
    && Distinct(source.scanner) && AllScanner(source.scanner) && AllSpelled(source.scanner)
    && (forall m :: PlainArguments(args(m)))
  }

  lemma {:induction false} PathsDistinct(es: Entries)
    requires WellSpelledEntries(es)
    ensures Distinct(Paths(es)) && AllSpelled(Paths(es))
  {
  }

  /** A plan is a filling of the pinned paths. */
  lemma {:induction false} PlanFills(tower: Tower, was: Entries, source: Source, fixtures: set<string>, sha: Digest,
                                     args: Arguments, plan: Plan)
    requires Pins in tower && Verify in tower && Policy in tower && WellSpelledEntries(was) && Feeds(source, args)
    requires PlanOf(tower, Paths(was), source, fixtures, sha, args) == Some(plan)
    ensures var paths := Wanted(Paths(was), source.scanner);
            && AllPresent(paths, source.files) && MANIFEST in paths && args(source.files[MANIFEST]).Some?
            && PlainSource(Target(source), paths, args(source.files[MANIFEST]).value)
            && Fill(tower, Target(source), paths, source.files, args(source.files[MANIFEST]).value, fixtures, sha)
                == Some(plan)
  {
    var paths := Wanted(Paths(was), source.scanner);
    PathsDistinct(was);
    WantedExactly(Paths(was), source.scanner);
    assert forall i :: 0 <= i < |paths| ==> paths[i] in paths;
    assert PlainArguments(args(source.files[MANIFEST]));
  }

  /** The second command on the tree left by the first `k` writes of a plan: it accepts exactly when none or all
      were written, or when the source did not move and pins and digest line fit together. */
  lemma {:induction false} HalfLandedRefused(tower: Tower, d: Doc, was: Entries, q: Doc, es: Entries, source: Source,
                                             fixtures: set<string>, sha: Digest, args: Arguments, plan: Plan, k: nat)
    requires Consistent(tower, d, was, q, es, sha) && PlainDigest(sha) && Feeds(source, args) && k <= |plan|
    requires PlanOf(tower, Paths(was), source, fixtures, sha, args) == Some(plan)
    ensures |plan| >= 3 && Policy in Written(tower, plan[..k])
    ensures PolicyAccepts(Written(tower, plan[..k]), Written(tower, plan[..k])[Policy], sha) <==>
            k == 0 || k == |plan| ||
            (Target(source) == PinnedTriple(d) && (k >= 2 || sha(plan[0].1) == sha(tower[Pins])))
  {
    PlanFills(tower, was, source, fixtures, sha, args, plan);
    FillDecided(tower, d, was, q, es, Target(source), Wanted(Paths(was), source.scanner), source.files,
                args(source.files[MANIFEST]).value, fixtures, sha, plan, k);
  }

  lemma {:induction false} FillDecided(tower: Tower, d: Doc, was: Entries, q: Doc, es: Entries, to: Triple,
                                       paths: seq<string>, files: map<string, Text>, args: seq<string>,
                                       fixtures: set<string>, sha: Digest, plan: Plan, k: nat)
    requires Consistent(tower, d, was, q, es, sha) && PlainDigest(sha) && AllPresent(paths, files)
    requires PlainSource(to, paths, args)
    requires Fill(tower, to, paths, files, args, fixtures, sha) == Some(plan) && k <= |plan|
    ensures |plan| >= 3 && Policy in Written(tower, plan[..k])
    ensures PolicyAccepts(Written(tower, plan[..k]), Written(tower, plan[..k])[Policy], sha) <==>
            k == 0 || k == |plan| || (to == PinnedTriple(d) && (k >= 2 || sha(plan[0].1) == sha(tower[Pins])))
  {
    var hashes := Hashes(paths, files, sha);
    HashesSpelled(paths, files, sha);
    FillShape(tower, d, was, q, es, to, paths, files, args, fixtures, sha, plan);
    StateReached(tower, plan, k, sha);
    PinsTextMeaning(d, was, to, hashes, args);
    NativeMeaning(q, es, to);
    Decided(Written(tower, plan[..k]), k, k == |plan|, d, was, NewPins(d, to, hashes, args), hashes, q, es,
            NewPolicy(q, es, to), SetTriple(es, to.commit, to.tree, to.sub), sha);
  }

  /** Moving to another commit: a half-landed tree is refused. */
  lemma {:induction false} MovedCommitNeedsAll(tower: Tower, d: Doc, was: Entries, q: Doc, es: Entries, source: Source,
                                               fixtures: set<string>, sha: Digest, args: Arguments, plan: Plan, k: nat)
    requires Consistent(tower, d, was, q, es, sha) && PlainDigest(sha) && Feeds(source, args) && k <= |plan|
    requires PlanOf(tower, Paths(was), source, fixtures, sha, args) == Some(plan)
    requires source.commit != PinnedTriple(d).commit
    ensures Policy in Written(tower, plan[..k])
    ensures PolicyAccepts(Written(tower, plan[..k]), Written(tower, plan[..k])[Policy], sha) <==> k == 0 || k == |plan|
  {
    HalfLandedRefused(tower, d, was, q, es, source, fixtures, sha, args, plan, k);
    assert Target(source).commit != PinnedTriple(d).commit;
  }
}
