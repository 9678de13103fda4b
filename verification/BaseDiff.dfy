/** The package diff between two base images and the report it prints (ci/base-diff.py, ci/base-blast-diff.sh). */
module BaseDiff {
  import opened Options
  import opened Strings
  import opened Orders

  type Manifest = map<string, string>

  // ----- load -----

  function NameOf(line: string): string { Strip(line)[..Find(Strip(line), ' ')] }

  function VersionOf(line: string): string {
    if Find(Strip(line), ' ') == |Strip(line)| then "" else Strip(line)[Find(Strip(line), ' ') + 1..]
  }

  /** Index of the last line that names the package, or the number of lines. */
  function LastLine(lines: seq<string>, name: string): nat {
    if lines == [] then 0
    else if Strip(lines[|lines| - 1]) != "" && NameOf(lines[|lines| - 1]) == name then |lines| - 1
    else if LastLine(lines[..|lines| - 1], name) == |lines| - 1 then |lines|
    else LastLine(lines[..|lines| - 1], name)
  }

  /** The manifest says exactly what the last line of each package says. */
  ghost predicate Reads(lines: seq<string>, m: Manifest) {
    forall name :: (name in m <==> LastLine(lines, name) < |lines|)
                   && (name in m ==> m[name] == VersionOf(lines[LastLine(lines, name)]))
  }

  lemma {:induction false} LastLineMore(lines: seq<string>, line: string, name: string)
    ensures LastLine(lines, name) <= |lines|
    ensures LastLine(lines + [line], name) ==
            if Strip(line) != "" && NameOf(line) == name then |lines|
            else if LastLine(lines, name) == |lines| then |lines| + 1 else LastLine(lines, name)
  {
    assert (lines + [line])[..|lines|] == lines;
    LastLineBound(lines, name);
  }

  lemma {:induction false} LastLineBound(lines: seq<string>, name: string)
    ensures LastLine(lines, name) <= |lines|
  {
    if lines != [] { LastLineBound(lines[..|lines| - 1], name); }
  }

  /** `load`: later lines win. */
  method Load(lines: seq<string>) returns (out: Manifest)
    ensures Reads(lines, out)
  {
    out := map[];
    for i := 0 to |lines|
      invariant Reads(lines[..i], out)
    {
      assert lines[..i + 1] == lines[..i] + [lines[i]];
      forall name ensures LastLine(lines[..i], name) <= i { LastLineBound(lines[..i], name); }
      forall name { LastLineMore(lines[..i], lines[i], name); }
      if Strip(lines[i]) == "" { continue; }
      out := out[NameOf(lines[i]) := VersionOf(lines[i])];
    }
    assert lines[..|lines|] == lines;
  }

  // ----- The blast radius -----

  const PREFIXES := ["qemu", "libvirt", "swtpm", "NetworkManager", "polkit", "systemd", "kernel", "docker-ce",
                     "containerd", "moby"]

  const WHOLE := ["edk2-ovmf", "virt-install", "virt-manager", "virt-viewer", "iwd", "wpa_supplicant", "bootc"]

  /** `BLAST_RADIUS.match` */
  predicate Blast(name: string) { name in WHOLE || exists p :: p in PREFIXES && p <= name }

  /** An absent package and an empty version are the same. */
  function At(m: Manifest, name: string): string { if name in m then m[name] else "" }

  // ----- The diff -----

  datatype Change = Change(name: string, before: string, after: string)

  datatype Diff = Diff(changed: seq<Change>, added: seq<(string, string)>, removed: seq<(string, string)>)

  const EMPTY := Diff([], [], [])

  /** One package of the loop. */
  function Noted(d: Diff, name: string, o: string, n: string): Diff {
    if o != "" && n != "" && o != n then d.(changed := d.changed + [Change(name, o, n)])
    else if n != "" && o == "" then d.(added := d.added + [(name, n)])
    else if o != "" && n == "" then d.(removed := d.removed + [(name, o)])
    else d
  }

  /** The packages that differ, among the given names. */
  function DiffOf(names: seq<string>, before: Manifest, after: Manifest): Diff {
    if names == [] then EMPTY
    else
      var name := names[|names| - 1];
      var d := DiffOf(names[..|names| - 1], before, after);
      if Blast(name) then Noted(d, name, At(before, name), At(after, name)) else d
  }

  method SortedNames(names: set<string>) returns (r: seq<string>)
    ensures StrictlySorted(StrLt, r) && forall name :: name in r <==> name in names
  {
    r := [];
    var todo := names;
    StrTotal();
    while todo != {}
      invariant todo <= names && StrictlySorted(StrLt, r)
      invariant forall name :: name in r <==> name in names && name !in todo
      decreases |todo|
    {
      var name :| name in todo;
      InsertSorted(StrLt, name, r);
      r := Insert(StrLt, name, r);
      todo := todo - {name};
    }
  }

  /** The loop of `main` over the sorted names of both manifests. */
  method Compare(before: Manifest, after: Manifest) returns (d: Diff)
    ensures exists names :: StrictlySorted(StrLt, names) && Covers(names, before, after)
              && d == DiffOf(names, before, after)
    ensures Patched(Restricted(before), d) == Restricted(after)
    ensures d == EMPTY <==> Restricted(before) == Restricted(after)
  {
    var names := SortedNames(before.Keys + after.Keys);
    d := EMPTY;
    for i := 0 to |names|
      invariant d == DiffOf(names[..i], before, after)
    {
      assert names[..i + 1][..i] == names[..i];
      var name := names[i];
      if !Blast(name) { continue; }
      var o, n := At(before, name), At(after, name);
      if o != "" && n != "" && o != n {
        d := d.(changed := d.changed + [Change(name, o, n)]);
      } else if n != "" && o == "" {
        d := d.(added := d.added + [(name, n)]);
      } else if o != "" && n == "" {
        d := d.(removed := d.removed + [(name, o)]);
      }
    }
    assert names[..|names|] == names;
    StrTotal();
    StrictlySortedDistinct(StrLt, names);
    assert Covers(names, before, after);
    DiffIsPatch(names, before, after);
    EmptyDiffExactly(names, before, after);
  }

  ghost predicate Covers(names: seq<string>, before: Manifest, after: Manifest) {
    Distinct(names) && forall name :: name in names <==> name in before || name in after
  }

  // ----- The diff is a patch -----

  /** The packages of the blast radius that have a version. */
  function Restricted(m: Manifest): Manifest { map name | name in m && Blast(name) && m[name] != "" :: m[name] }

  function PutChanged(m: Manifest, changed: seq<Change>): Manifest {
    if changed == [] then m
    else PutChanged(m, changed[..|changed| - 1])[changed[|changed| - 1].name := changed[|changed| - 1].after]
  }

  function PutAdded(m: Manifest, added: seq<(string, string)>): Manifest {
    if added == [] then m else PutAdded(m, added[..|added| - 1])[added[|added| - 1].0 := added[|added| - 1].1]
  }

  function Drop(m: Manifest, removed: seq<(string, string)>): Manifest {
    if removed == [] then m else Drop(m, removed[..|removed| - 1]) - {removed[|removed| - 1].0}
  }

  /** Apply a diff: change, add, remove. */
  function Patched(m: Manifest, d: Diff): Manifest { Drop(PutAdded(PutChanged(m, d.changed), d.added), d.removed) }

  /** The manifest after the names listed have been brought up to date. */
  function Updated(m: Manifest, names: seq<string>, before: Manifest, after: Manifest): Manifest {
    if names == [] then m
    else
      var name := names[|names| - 1];
      var u := Updated(m, names[..|names| - 1], before, after);
      if !Blast(name) || At(before, name) == At(after, name) then u
      else if At(after, name) == "" then u - {name} else u[name := At(after, name)]
  }

  ghost predicate ChangedFresh(changed: seq<Change>, name: string) {
    forall i :: 0 <= i < |changed| ==> changed[i].name != name
  }

  ghost predicate PairsFresh(pairs: seq<(string, string)>, name: string) {
    forall i :: 0 <= i < |pairs| ==> pairs[i].0 != name
  }

  ghost predicate Fresh(d: Diff, name: string) {
    ChangedFresh(d.changed, name) && PairsFresh(d.added, name) && PairsFresh(d.removed, name)
  }

  lemma {:induction false} AddedLater(m: Manifest, added: seq<(string, string)>, name: string, v: string)
    requires PairsFresh(added, name)
    ensures PutAdded(m[name := v], added) == PutAdded(m, added)[name := v]
  {
    if added != [] {
      AddedLater(m, added[..|added| - 1], name, v);
      assert added[|added| - 1].0 != name;
    }
  }

  lemma {:induction false} DroppedLater(m: Manifest, removed: seq<(string, string)>, name: string, v: string)
    requires PairsFresh(removed, name)
    ensures Drop(m[name := v], removed) == Drop(m, removed)[name := v]
  {
    if removed != [] {
      DroppedLater(m, removed[..|removed| - 1], name, v);
      assert removed[|removed| - 1].0 != name;
    }
  }

  /** Noting one more package updates that package. */
  lemma {:induction false} PatchedMore(m: Manifest, d: Diff, name: string, o: string, n: string)
    requires Fresh(d, name)
    ensures Patched(m, Noted(d, name, o, n)) ==
            if o == n then Patched(m, d) else if n == "" then Patched(m, d) - {name} else Patched(m, d)[name := n]
  {
    var e := Noted(d, name, o, n);
    if o != "" && n != "" && o != n {
      assert e.changed[..|d.changed|] == d.changed;
      AddedLater(PutChanged(m, d.changed), d.added, name, n);
      DroppedLater(PutAdded(PutChanged(m, d.changed), d.added), d.removed, name, n);
    } else if n != "" && o == "" {
      assert e.added[..|d.added|] == d.added;
      DroppedLater(PutAdded(PutChanged(m, d.changed), d.added), d.removed, name, n);
    } else if o != "" && n == "" {
      assert e.removed[..|d.removed|] == d.removed;
    }
  }

  lemma {:induction false} DiffNames(names: seq<string>, before: Manifest, after: Manifest, name: string)
    requires name !in names
    ensures Fresh(DiffOf(names, before, after), name)
  {
    if names != [] {
      DiffNames(names[..|names| - 1], before, after, name);
      assert names[|names| - 1] in names;
    }
  }

  lemma {:induction false} PatchUpdates(m: Manifest, names: seq<string>, before: Manifest, after: Manifest)
    requires Distinct(names)
    ensures Patched(m, DiffOf(names, before, after)) == Updated(m, names, before, after)
  {
    if names != [] {
      var init, name := names[..|names| - 1], names[|names| - 1];
      PatchUpdates(m, init, before, after);
      assert name !in init;
      DiffNames(init, before, after, name);
      PatchedMore(m, DiffOf(init, before, after), name, At(before, name), At(after, name));
    }
  }

  lemma {:induction false} UpdatedReads(m: Manifest, names: seq<string>, before: Manifest, after: Manifest,
                                        name: string)
    ensures name !in names || !Blast(name) || At(before, name) == At(after, name) ==>
              (name in Updated(m, names, before, after) <==> name in m)
                  && At(Updated(m, names, before, after), name) == At(m, name)
    ensures name in names && Blast(name) && At(before, name) != At(after, name) ==>
              (name in Updated(m, names, before, after) <==> At(after, name) != "")
              && At(Updated(m, names, before, after), name) == At(after, name)
  {
    if names != [] {
      UpdatedReads(m, names[..|names| - 1], before, after, name);
      assert names == names[..|names| - 1] + [names[|names| - 1]];
    }
  }

  lemma {:induction false} RestrictedReads(m: Manifest, name: string)
    ensures name in Restricted(m) <==> Blast(name) && At(m, name) != ""
    ensures At(Restricted(m), name) == if Blast(name) then At(m, name) else ""
  {
  }

  /** Applying the diff to the old packages of the blast radius gives the new ones. */
  lemma {:induction false} DiffIsPatch(names: seq<string>, before: Manifest, after: Manifest)
    requires Covers(names, before, after)
    ensures Patched(Restricted(before), DiffOf(names, before, after)) == Restricted(after)
  {
    PatchUpdates(Restricted(before), names, before, after);
    var u := Updated(Restricted(before), names, before, after);
    forall name ensures (name in u <==> name in Restricted(after)) && At(u, name) == At(Restricted(after), name) {
      UpdatedReads(Restricted(before), names, before, after, name);
      RestrictedReads(before, name);
      RestrictedReads(after, name);
    }
    forall name | name in u ensures name in Restricted(after) && u[name] == Restricted(after)[name] {
      assert At(u, name) == At(Restricted(after), name);
    }
  }

  /** The diff is empty exactly when the two agree on the blast radius. */
  lemma {:induction false} EmptyDiffExactly(names: seq<string>, before: Manifest, after: Manifest)
    requires Covers(names, before, after)
    ensures DiffOf(names, before, after) == EMPTY <==> Restricted(before) == Restricted(after)
  {
    DiffIsPatch(names, before, after);
    if Restricted(before) == Restricted(after) {
      forall name | name in names && Blast(name) ensures At(before, name) == At(after, name) {
        RestrictedReads(before, name);
        RestrictedReads(after, name);
      }
      NothingNoted(names, before, after);
    }
  }

  lemma {:induction false} NothingNoted(names: seq<string>, before: Manifest, after: Manifest)
    requires forall name :: name in names && Blast(name) ==> At(before, name) == At(after, name)
    ensures DiffOf(names, before, after) == EMPTY
  {
    if names != [] {
      NothingNoted(names[..|names| - 1], before, after);
      assert names[|names| - 1] in names;
    }
  }
}
