/** `prepare`: hand the scratch trees, and nothing else, to the build uid
    (build_files/firewall/snitchwatch-system-unpriv.py). */
module Prepare {
  import opened BuildTree

  /** Scratch directories under WORK; those in `created` do not exist yet. Read-only trees are checked first. */
  datatype Profile = Profile(scratch: seq<string>, created: seq<string>, readonly: seq<string>) {
    ghost predicate Valid() {
      && (forall n :: n in created ==> n in scratch)
      && (forall i, j :: 0 <= i < j < |created| ==> created[i] != created[j])
      && (forall n :: n in readonly ==> n !in scratch)
    }
  }

  const BRIDGE := Profile(["bridge-cargo", "dist", "target", "home"], ["dist", "target", "home"], ["source"])
  const SCANNER := Profile(["scanner-cargo", "scanner", "home"], ["scanner", "home"], ["source", "scanner-inputs"])

  lemma ProfilesValid()
    ensures BRIDGE.Valid() && SCANNER.Valid()
  {
  }

  datatype Build = Build(work: Path, profile: Profile, uid: nat, gid: nat, owner: (nat, nat))

  /** `path must be a root-owned directory without group/other write`. */
  predicate GuardedDir(fs: Fs, b: Build, p: Path) {
    fs.Has(p) && (fs.At(p).uid, fs.At(p).gid) == b.owner && fs.At(p).mode & 0x012 == 0 && fs.At(p).kind == Directory
  }

  /** An entry of a read-only tree that `source_problems` has nothing to say about. */
  predicate CleanEntry(i: Inode, owner: (nat, nat)) {
    && (i.uid, i.gid) == owner
    && (i.kind == Symlink ||
        (i.mode & 0x012 == 0 && i.mode & 0x004 != 0 && (i.kind == Directory ==> i.mode & 0x001 != 0)))
  }

  /** The root of a tree and everything the walk lists below it. */
  ghost predicate InTree(fs: Fs, top: Path, p: Path) { p in fs.names && (p == top || Walked(fs, top, p)) }

  ghost predicate CleanTree(fs: Fs, b: Build, top: Path) {
    fs.Has(top) && forall p :: InTree(fs, top, p) && fs.Has(p) ==> CleanEntry(fs.At(p), b.owner)
  }

  predicate OwnedBy(i: Inode, b: Build) { i.uid == b.uid || i.gid == b.gid }

  /** Entries of the root's own filesystem that the build ids own. */
  ghost predicate OwnedEntry(fs: Fs, b: Build, p: Path) {
    Walked(fs, [], p) && fs.Has(p) && fs.Has([]) && fs.At(p).dev == fs.At([]).dev && OwnedBy(fs.At(p), b)
  }

  predicate Handable(fs: Fs, p: Path) { fs.Has(p) && (fs.At(p).kind == Directory || fs.At(p).kind == Regular) }

  ghost predicate HandableTree(fs: Fs, top: Path) { forall p :: InTree(fs, top, p) ==> Handable(fs, p) }

  /** Everything checked before the first directory is made. */
  ghost predicate Screened(fs: Fs, b: Build) {
    && GuardedDir(fs, b, Parent(b.work)) && GuardedDir(fs, b, b.work)
    && (forall n :: n in b.profile.readonly ==> CleanTree(fs, b, b.work + [n]))
    && (forall p :: !OwnedEntry(fs, b, p))
    && (forall n :: n in b.profile.scratch && n !in b.profile.created ==> fs.IsDir(b.work + [n]))
  }

  /** The scratch directories to be made do not exist. */
  ghost predicate NoneExists(fs: Fs, b: Build) { forall n :: n in b.profile.created ==> b.work + [n] !in fs.names }

  /** The tree with the empty scratch directories made. */
  function Made(fs: Fs, b: Build): Fs
    requires fs.Has(b.work)
  {
    MkdirAll(fs, b, b.profile.created, fs.At(b.work).dev)
  }

  /** When `prepare` goes through. */
  ghost predicate Accepts(fs: Fs, b: Build) {
    Screened(fs, b) && NoneExists(fs, b)
        && forall n :: n in b.profile.scratch ==> HandableTree(Made(fs, b), b.work + [n])
  }

  // ----- The two changes -----

  function Mkdir(fs: Fs, p: Path, b: Build, dev: nat): Fs {
    Fs(fs.names[p := fs.next],
       fs.inodes[fs.next := Inode(Directory, b.owner.0, b.owner.1, EMPTY_DIR, dev)], fs.next + 1)
  }

  /** lchown: the inode behind the name changes owner. */
  function Chown(fs: Fs, p: Path, b: Build): Fs
    requires fs.Has(p)
  {
    fs.(inodes := fs.inodes[fs.names[p] := fs.At(p).(uid := b.uid, gid := b.gid)])
  }

  /** The same tree with the inodes in `given` handed over. */
  function Handed(fs: Fs, given: set<nat>, b: Build): Fs {
    fs.(inodes := map i | i in fs.inodes ::
          if i in given then fs.inodes[i].(uid := b.uid, gid := b.gid) else fs.inodes[i])
  }

  /** Same names, kinds, modes and devices: ownership is all that may differ. */
  ghost predicate SameShape(a: Fs, c: Fs) {
    && a.names == c.names && a.inodes.Keys == c.inodes.Keys && a.next == c.next
    && forall i :: i in a.inodes ==> c.inodes[i] == a.inodes[i].(uid := c.inodes[i].uid, gid := c.inodes[i].gid)
  }

  lemma {:induction false} SameShapeWalks(a: Fs, c: Fs, top: Path, p: Path)
    requires a.Tree() && SameShape(a, c)
    ensures c.Tree()
    ensures Walked(a, top, p) <==> Walked(c, top, p)
    ensures InTree(a, top, p) <==> InTree(c, top, p)
    ensures Handable(a, p) <==> Handable(c, p)
  {
    forall q ensures Kept(a, top, q) <==> Kept(c, top, q) {}
  }

  lemma {:induction false} HandedShape(fs: Fs, given: set<nat>, b: Build)
    ensures SameShape(fs, Handed(fs, given, b))
  {
  }

  lemma {:induction false} ChownIsHanding(fs: Fs, given: set<nat>, p: Path, b: Build)
    requires fs.Has(p)
    ensures Chown(Handed(fs, given, b), p, b) == Handed(fs, given + {fs.names[p]}, b)
  {
    assert Chown(Handed(fs, given, b), p, b).inodes == Handed(fs, given + {fs.names[p]}, b).inodes;
  }

  /** The inodes behind the scratch trees. */
  ghost predicate ScratchPath(fs: Fs, b: Build, p: Path) {
    exists n :: n in b.profile.scratch && InTree(fs, b.work + [n], p)
  }

  ghost function ScratchInodes(fs: Fs, b: Build): set<nat> {
    set p | p in fs.names && ScratchPath(fs, b, p) :: fs.names[p]
  }

  // ----- Making the empty directories -----

  /** One new directory. */
  lemma {:induction false} MkdirTree(g: Fs, p: Path, b: Build, dev: nat)
    requires g.Tree() && p != [] && p !in g.names && g.IsDir(Parent(p))
    ensures
      var h := Mkdir(g, p, b, dev);
      && h.Tree() && h.names == g.names[p := g.next] && h.next == g.next + 1
      && h.inodes == g.inodes[g.next := Inode(Directory, b.owner.0, b.owner.1, EMPTY_DIR, dev)]
      && g.next !in g.inodes
  {
    var h := Mkdir(g, p, b, dev);
    forall q | q in h.names && q != [] ensures Parent(q) in h.names && h.inodes[h.names[Parent(q)]].kind == Directory {
      if q != p { assert Parent(q) in g.names && g.names[Parent(q)] != g.next; }
    }
  }

  function NewNames(work: Path, names: seq<string>, base: nat): map<Path, nat> {
    if names == [] then map[]
    else NewNames(work, names[..|names| - 1], base)[work + [names[|names| - 1]] := base + |names| - 1]
  }

  function NewInodes(base: nat, count: nat, i: Inode): (m: map<nat, Inode>)
    ensures forall k :: k in m <==> base <= k < base + count
    ensures forall k :: k in m ==> m[k] == i
  {
    if count == 0 then map[] else NewInodes(base, count - 1, i)[base + count - 1 := i]
  }

  function NewDir(b: Build, dev: nat): Inode { Inode(Directory, b.owner.0, b.owner.1, EMPTY_DIR, dev) }

  function MkdirAll(fs: Fs, b: Build, names: seq<string>, dev: nat): Fs {
    Fs(fs.names + NewNames(b.work, names, fs.next), fs.inodes + NewInodes(fs.next, |names|, NewDir(b, dev)),
       fs.next + |names|)
  }

  /** Which names are new, and that no two of them share an inode. */
  lemma {:induction false} NewNamesAt(work: Path, names: seq<string>, base: nat, p: Path)
    requires forall i, j :: 0 <= i < j < |names| ==> names[i] != names[j]
    ensures p in NewNames(work, names, base) <==> |p| == |work| + 1 && work < p && p[|work|] in names
    ensures p in NewNames(work, names, base) ==> p == work + [p[|work|]]
    ensures p in NewNames(work, names, base) ==>
      base <= NewNames(work, names, base)[p] < base + |names|
          && names[NewNames(work, names, base)[p] - base] == p[|work|]
  {
    if names != [] {
      var init, last := names[..|names| - 1], names[|names| - 1];
      NewNamesAt(work, init, base, p);
      assert names == init + [last];
      if p == work + [last] { assert p[|work|] == last; }
      if |p| == |work| + 1 && work < p && p[|work|] == last { assert p == work + [last]; }
    }
  }

  lemma AddedLast<K, V>(m: map<K, V>, n: map<K, V>, k: K, v: V)
    ensures (m + n)[k := v] == m + n[k := v]
  {
  }

  /** The loop over the fresh names, one directory at a time. */
  lemma {:induction false} MkdirAllStep(fs: Fs, b: Build, names: seq<string>, i: nat, dev: nat)
    requires i < |names|
    ensures Mkdir(MkdirAll(fs, b, names[..i], dev), b.work + [names[i]], b, dev) == MkdirAll(fs, b, names[..i + 1], dev)
  {
    assert names[..i + 1][..i] == names[..i];
    AddedLast(fs.names, NewNames(b.work, names[..i], fs.next), b.work + [names[i]], fs.next + i);
    AddedLast(fs.inodes, NewInodes(fs.next, i, NewDir(b, dev)), fs.next + i, NewDir(b, dev));
  }

  ghost predicate Creatable(fs: Fs, b: Build, names: seq<string>) {
    && fs.Tree() && fs.IsDir(b.work)
    && (forall i, j :: 0 <= i < j < |names| ==> names[i] != names[j])
    && forall n :: n in names ==> b.work + [n] !in fs.names
  }

  /** Whether the i-th directory is there yet does not depend on the ones made before it. */
  lemma {:induction false} StillAbsent(fs: Fs, b: Build, names: seq<string>, i: nat, dev: nat)
    requires i < |names| && forall i, j :: 0 <= i < j < |names| ==> names[i] != names[j]
    ensures b.work + [names[i]] in MkdirAll(fs, b, names[..i], dev).names <==> b.work + [names[i]] in fs.names
  {
    var p := b.work + [names[i]];
    assert p[|b.work|] == names[i];
    NewNamesAt(b.work, names[..i], fs.next, p);
  }

  lemma {:induction false} MkdirAllTree(fs: Fs, b: Build, names: seq<string>, i: nat, dev: nat)
    requires Creatable(fs, b, names) && i <= |names|
    ensures MkdirAll(fs, b, names[..i], dev).Tree() && MkdirAll(fs, b, names[..i], dev).IsDir(b.work)
  {
    if i == 0 {
      assert names[..0] == [];
      NothingMade(fs, b, dev);
    } else {
      MkdirAllTree(fs, b, names, i - 1, dev);
      StillAbsent(fs, b, names, i - 1, dev);
      MkdirAllStep(fs, b, names, i - 1, dev);
      assert names[i - 1] in names;
      var p := b.work + [names[i - 1]];
      assert Parent(p) == b.work;
      MkdirTree(MkdirAll(fs, b, names[..i - 1], dev), p, b, dev);
    }
  }

  // ----- The operation -----

  class Disk {
    var fs: Fs

    constructor (fs: Fs)
      ensures this.fs == fs
    {
      this.fs := fs;
    }

    method MakeDir(p: Path, b: Build, dev: nat)
      modifies this
      ensures fs == Mkdir(old(fs), p, b, dev)
    {
      fs := Mkdir(fs, p, b, dev);
    }

    method ChangeOwner(p: Path, b: Build)
      requires fs.Has(p)
      modifies this
      ensures fs == Chown(old(fs), p, b)
    {
      fs := Chown(fs, p, b);
    }
  }

  predicate Dirty(fs: Fs, b: Build, p: Path) { fs.Has(p) && !CleanEntry(fs.At(p), b.owner) }

  method DirtyEntries(fs: Fs, b: Build, entries: seq<Path>) returns (problems: seq<Path>)
    requires forall i :: 0 <= i < |entries| ==> fs.Has(entries[i])
    ensures forall p :: p in problems <==> p in entries && Dirty(fs, b, p)
  {
    problems := [];
    for i := 0 to |entries|
      invariant forall p :: p in problems <==> p in entries[..i] && Dirty(fs, b, p)
    {
      assert entries[..i + 1] == entries[..i] + [entries[i]];
      if !CleanEntry(fs.At(entries[i]), b.owner) {
        problems := problems + [entries[i]];
      }
    }
    assert entries[..|entries|] == entries;
  }

  /** `source_problems`: the entries that are not clean. */
  method SourceProblems(fs: Fs, b: Build, top: Path) returns (problems: seq<Path>)
    requires fs.Tree() && fs.Has(top)
    ensures problems == [] <==> CleanTree(fs, b, top)
    ensures forall p :: p in problems <==> InTree(fs, top, p) && Dirty(fs, b, p)
  {
    var entries := Walk(fs, top);
    entries := [top] + entries;
    assert forall p :: p in entries <==> InTree(fs, top, p);
    forall i | 0 <= i < |entries| ensures fs.Has(entries[i]) { assert entries[i] in entries; }
    problems := DirtyEntries(fs, b, entries);
    if problems != [] { assert problems[0] in problems; }
  }

  /** `owned_by_build_ids`. */
  method OwnedByBuildIds(fs: Fs, b: Build) returns (owned: seq<Path>)
    requires fs.Tree()
    ensures forall p :: p in owned <==> OwnedEntry(fs, b, p)
  {
    var entries := Walk(fs, []);
    owned := [];
    for i := 0 to |entries|
      invariant forall p :: p in owned <==> p in entries[..i] && OwnedEntry(fs, b, p)
    {
      assert entries[..i + 1] == entries[..i] + [entries[i]];
      assert entries[i] in entries;
      if fs.At(entries[i]).dev == fs.At([]).dev && OwnedBy(fs.At(entries[i]), b) {
        owned := owned + [entries[i]];
      }
    }
    assert entries[..|entries|] == entries;
  }

  ghost predicate ReadonlyClean(fs: Fs, b: Build, i: nat)
    requires i <= |b.profile.readonly|
  {
    forall j :: 0 <= j < i ==> CleanTree(fs, b, b.work + [b.profile.readonly[j]])
  }

  /** The loop over the read-only trees. */
  method ScreenReadonly(fs: Fs, b: Build) returns (ok: bool)
    requires fs.Tree()
    ensures ok <==> forall n :: n in b.profile.readonly ==> CleanTree(fs, b, b.work + [n])
  {
    for i := 0 to |b.profile.readonly|
      invariant ReadonlyClean(fs, b, i)
    {
      var n := b.profile.readonly[i];
      assert n in b.profile.readonly;
      if !fs.Has(b.work + [n]) { return false; }
      var problems := SourceProblems(fs, b, b.work + [n]);
      if problems != [] { return false; }
    }
    return true;
  }

  /** The loop over the scratch directories that must be there. */
  method ScreenScratch(fs: Fs, b: Build) returns (ok: bool)
    ensures ok <==> forall n :: n in b.profile.scratch && n !in b.profile.created ==> fs.IsDir(b.work + [n])
  {
    var scratch := b.profile.scratch;
    for i := 0 to |scratch|
      invariant forall j :: 0 <= j < i && scratch[j] !in b.profile.created ==> fs.IsDir(b.work + [scratch[j]])
    {
      if scratch[i] !in b.profile.created && !fs.IsDir(b.work + [scratch[i]]) {
        assert scratch[i] in scratch;
        return false;
      }
    }
    return true;
  }

  /** The checks of `prepare`, in order. */
  method Screen(fs: Fs, b: Build) returns (ok: bool)
    requires fs.Tree()
    ensures ok <==> Screened(fs, b)
  {
    if !GuardedDir(fs, b, Parent(b.work)) || !GuardedDir(fs, b, b.work) {
      return false;
    }
    ok := ScreenReadonly(fs, b);
    if ok {
      var owned := OwnedByBuildIds(fs, b);
      if owned != [] {
        assert owned[0] in owned;
        return false;
      }
      ok := ScreenScratch(fs, b);
    }
  }

  // ----- prepare -----

  /** Every old name still names the same inode, and no old inode has changed. */
  ghost predicate KeepsOld(fs: Fs, g: Fs) {
    && (forall i :: i in fs.inodes ==> i in g.inodes && g.inodes[i] == fs.inodes[i])
    && (forall p :: p in fs.names ==> p in g.names && g.names[p] == fs.names[p])
  }

  lemma {:induction false} OldKept(fs: Fs, b: Build, names: seq<string>, dev: nat)
    requires fs.Tree()
    requires forall i, j :: 0 <= i < j < |names| ==> names[i] != names[j]
    requires forall n :: n in names ==> b.work + [n] !in fs.names
    ensures KeepsOld(fs, MkdirAll(fs, b, names, dev))
  {
    var g := MkdirAll(fs, b, names, dev);
    forall p | p in fs.names ensures p in g.names && g.names[p] == fs.names[p] {
      NewNamesAt(b.work, names, fs.next, p);
    }
  }

  /** Every name that was not there before is one of the new directories. */
  lemma {:induction false} NewIsScratch(fs: Fs, b: Build, names: seq<string>, dev: nat, p: Path)
    requires forall i, j :: 0 <= i < j < |names| ==> names[i] != names[j]
    requires p in MkdirAll(fs, b, names, dev).names && p !in fs.names
    ensures |p| == |b.work| + 1 && b.work < p && p[|b.work|] in names && p == b.work + [p[|b.work|]]
    ensures MkdirAll(fs, b, names, dev).Has(p) && MkdirAll(fs, b, names, dev).At(p) == NewDir(b, dev)
  {
    NewNamesAt(b.work, names, fs.next, p);
  }

  lemma {:induction false} NothingMade(fs: Fs, b: Build, dev: nat)
    ensures MkdirAll(fs, b, [], dev) == fs
  {
    assert fs.names + NewNames(b.work, [], fs.next) == fs.names;
    assert fs.inodes + NewInodes(fs.next, 0, NewDir(b, dev)) == fs.inodes;
  }

  /** The first `i` directories are made, and none of them was there. */
  ghost predicate FirstMade(fs: Fs, b: Build, i: nat, dev: nat, g: Fs) {
    && fs.Tree() && fs.IsDir(b.work) && b.profile.Valid() && i <= |b.profile.created|
    && NoneOf(fs, b, b.profile.created[..i]) && g == MkdirAll(fs, b, b.profile.created[..i], dev)
  }

  lemma FirstMadeKeepsOld(fs: Fs, b: Build, i: nat, dev: nat, g: Fs)
    requires FirstMade(fs, b, i, dev, g)
    ensures KeepsOld(fs, g)
  {
    OldKept(fs, b, b.profile.created[..i], dev);
  }

  lemma AllMade(fs: Fs, b: Build, dev: nat, g: Fs)
    requires FirstMade(fs, b, |b.profile.created|, dev, g)
    ensures NoneExists(fs, b) && g == MkdirAll(fs, b, b.profile.created, dev) && g.Tree()
  {
    assert b.profile.created[..|b.profile.created|] == b.profile.created;
    MadeAll(fs, b, dev);
  }

  /** Refused at the i-th directory, which exists: the ones before it are made and nothing else has changed. */
  ghost predicate StoppedAt(fs: Fs, b: Build, i: nat, g: Fs) {
    && fs.Has(b.work) && FirstMade(fs, b, i, fs.At(b.work).dev, g)
    && i < |b.profile.created| && b.work + [b.profile.created[i]] in fs.names
  }

  /** The next directory, unless it exists. */
  method MakeNext(d: Disk, b: Build, i: nat, dev: nat, ghost fs: Fs) returns (made: bool)
    requires i < |b.profile.created| && FirstMade(fs, b, i, dev, d.fs)
    modifies d
    ensures made <==> b.work + [b.profile.created[i]] !in fs.names
    ensures FirstMade(fs, b, if made then i + 1 else i, dev, d.fs)
  {
    var p := b.work + [b.profile.created[i]];
    StillAbsent(fs, b, b.profile.created, i, dev);
    if p in d.fs.names { return false; }
    MkdirAllStep(fs, b, b.profile.created, i, dev);
    NoneOfMore(fs, b, b.profile.created, i);
    d.MakeDir(p, b, dev);
    return true;
  }

  /** The loop that makes the empty directories, stopping at the first that exists. */
  method MakeScratch(d: Disk, b: Build) returns (ok: bool)
    requires d.fs.Tree() && d.fs.IsDir(b.work) && b.profile.Valid()
    modifies d
    ensures ok <==> NoneExists(old(d.fs), b)
    ensures ok ==> d.fs == Made(old(d.fs), b) && d.fs.Tree()
    ensures !ok ==> exists i :: StoppedAt(old(d.fs), b, i, d.fs)
    ensures KeepsOld(old(d.fs), d.fs)
  {
    ghost var fs := d.fs;
    var dev := d.fs.At(b.work).dev;
    NothingMade(fs, b, dev);
    for i := 0 to |b.profile.created|
      invariant FirstMade(fs, b, i, dev, d.fs)
    {
      ok := MakeNext(d, b, i, dev, fs);
      if !ok {
        FirstMadeKeepsOld(fs, b, i, dev, d.fs);
        assert StoppedAt(fs, b, i, d.fs);
        assert b.profile.created[i] in b.profile.created;
        return;
      }
    }
    FirstMadeKeepsOld(fs, b, |b.profile.created|, dev, d.fs);
    AllMade(fs, b, dev, d.fs);
    return true;
  }

  ghost predicate NoneOf(fs: Fs, b: Build, names: seq<string>) { forall n :: n in names ==> b.work + [n] !in fs.names }

  lemma NoneOfMore(fs: Fs, b: Build, names: seq<string>, i: nat)
    requires i < |names| && NoneOf(fs, b, names[..i]) && b.work + [names[i]] !in fs.names
    ensures NoneOf(fs, b, names[..i + 1])
  {
    assert names[..i + 1] == names[..i] + [names[i]];
  }

  lemma {:induction false} MadeAll(fs: Fs, b: Build, dev: nat)
    requires fs.Tree() && fs.IsDir(b.work) && b.profile.Valid() && NoneOf(fs, b, b.profile.created)
    ensures MkdirAll(fs, b, b.profile.created, dev).Tree() && KeepsOld(fs, MkdirAll(fs, b, b.profile.created, dev))
  {
    var names := b.profile.created;
    assert names[..|names|] == names;
    MkdirAllTree(fs, b, names, |names|, dev);
    OldKept(fs, b, names, dev);
  }

  ghost function TreeInodes(fs: Fs, top: Path): set<nat> { set p | p in fs.names && InTree(fs, top, p) :: fs.names[p] }

  /** A scratch tree's entries, its top first; handing inodes over does not change what is walked. */
  method ListTree(d: Disk, b: Build, top: Path, ghost g: Fs, ghost given: set<nat>) returns (entries: seq<Path>)
    requires g.Tree() && top in g.names && d.fs == Handed(g, given, b)
    ensures forall p :: p in entries <==> InTree(g, top, p)
  {
    HandedShape(g, given, b);
    forall p { SameShapeWalks(g, d.fs, top, p); }
    entries := Walk(d.fs, top);
    entries := [top] + entries;
  }

  /** One entry: refused unless it is a file or a directory, else given to the build uid. */
  method HandEntry(d: Disk, b: Build, p: Path, ghost g: Fs, ghost now: set<nat>) returns (ok: bool)
    requires g.Tree() && p in g.names && d.fs == Handed(g, now, b)
    modifies d
    ensures ok <==> Handable(g, p)
    ensures d.fs == Handed(g, if ok then now + {g.names[p]} else now, b)
  {
    HandedShape(g, now, b);
    if !Handable(d.fs, p) { return false; }
    ChownIsHanding(g, now, p, b);
    d.ChangeOwner(p, b);
    return true;
  }

  /** The loop that hands one scratch tree over, stopping at the first entry that is neither file nor directory. */
  method HandOver(d: Disk, b: Build, top: Path, ghost g: Fs, ghost given: set<nat>)
    returns (ok: bool, ghost now: set<nat>)
    requires g.Tree() && top in g.names && d.fs == Handed(g, given, b)
    modifies d
    ensures ok <==> HandableTree(g, top)
    ensures d.fs == Handed(g, now, b) && given <= now <= given + TreeInodes(g, top)
    ensures ok ==> now == given + TreeInodes(g, top)
  {
    var entries := ListTree(d, b, top, g, given);
    now := given;
    for i := 0 to |entries|
      invariant d.fs == Handed(g, now, b)
      invariant given <= now <= given + TreeInodes(g, top)
      invariant forall p :: p in entries[..i] ==> Handable(g, p) && g.names[p] in now
    {
      var p := entries[i];
      assert p in entries && entries[..i + 1] == entries[..i] + [p];
      ok := HandEntry(d, b, p, g, now);
      if !ok { return; }
      now := now + {g.names[p]};
    }
    assert entries[..|entries|] == entries;
    return true, now;
  }

  /** The first `i` scratch trees are handed over. */
  ghost predicate HandedUpTo(g: Fs, b: Build, i: nat, given: set<nat>)
    requires i <= |b.profile.scratch|
  {
    forall j :: 0 <= j < i
        ==> HandableTree(g, b.work + [b.profile.scratch[j]]) && TreeInodes(g, b.work + [b.profile.scratch[j]]) <= given
  }

  lemma HandedMore(g: Fs, b: Build, i: nat, given: set<nat>, now: set<nat>)
    requires i < |b.profile.scratch| && HandedUpTo(g, b, i, given) && given <= now
    requires HandableTree(g, b.work + [b.profile.scratch[i]]) && TreeInodes(g, b.work + [b.profile.scratch[i]]) <= now
    ensures HandedUpTo(g, b, i + 1, now)
  {
  }

  /** The loop over the scratch trees. */
  method HandAll(d: Disk, b: Build, ghost g: Fs) returns (ok: bool, ghost given: set<nat>)
    requires g.Tree() && d.fs == g && forall n :: n in b.profile.scratch ==> b.work + [n] in g.names
    modifies d
    ensures ok <==> forall n :: n in b.profile.scratch ==> HandableTree(g, b.work + [n])
    ensures d.fs == Handed(g, given, b) && given <= ScratchInodes(g, b)
    ensures ok ==> given == ScratchInodes(g, b)
  {
    given := {};
    assert Handed(g, {}, b).inodes == g.inodes;
    for i := 0 to |b.profile.scratch|
      invariant d.fs == Handed(g, given, b)
      invariant given <= ScratchInodes(g, b)
      invariant HandedUpTo(g, b, i, given)
    {
      ghost var before := given;
      var n := b.profile.scratch[i];
      assert n in b.profile.scratch;
      TreeOfScratch(g, b, n);
      ok, given := HandOver(d, b, b.work + [n], g, given);
      if !ok {
        return;
      }
      HandedMore(g, b, i, before, given);
    }
    AllTreesGiven(g, b, given);
    ok := true;
  }

  lemma {:induction false} TreeOfScratch(g: Fs, b: Build, n: string)
    requires n in b.profile.scratch
    ensures TreeInodes(g, b.work + [n]) <= ScratchInodes(g, b)
  {
    assert forall p :: InTree(g, b.work + [n], p) ==> ScratchPath(g, b, p);
  }

  lemma {:induction false} AllTreesGiven(g: Fs, b: Build, given: set<nat>)
    requires HandedUpTo(g, b, |b.profile.scratch|, given)
    ensures forall n :: n in b.profile.scratch ==> HandableTree(g, b.work + [n])
    ensures ScratchInodes(g, b) <= given
  {
    forall p | p in g.names && ScratchPath(g, b, p) ensures g.names[p] in given {
      var n :| n in b.profile.scratch && InTree(g, b.work + [n], p);
      assert g.names[p] in TreeInodes(g, b.work + [n]);
    }
  }

  /** Every outcome: nothing is done; or the directories before the first that exists are made; or all of them are,
      and some inodes of the scratch trees have changed owner. */
  ghost predicate OnlyScratchChanged(fs: Fs, h: Fs, b: Build) {
    || h == fs
    || (Screened(fs, b) && exists i :: StoppedAt(fs, b, i, h))
    || (Screened(fs, b) && NoneExists(fs, b)
        && exists given :: given <= ScratchInodes(Made(fs, b), b) && h == Handed(Made(fs, b), given, b))
  }

  /** `prepare`. */
  method Prepare(d: Disk, b: Build) returns (ok: bool)
    requires d.fs.Tree() && b.profile.Valid()
    modifies d
    ensures ok <==> Accepts(old(d.fs), b)
    ensures ok ==> d.fs == Handed(Made(old(d.fs), b), ScratchInodes(Made(old(d.fs), b), b), b)
    ensures OnlyScratchChanged(old(d.fs), d.fs, b)
  {
    ghost var fs := d.fs;
    ok := Screen(d.fs, b);
    if !ok { return; }
    ok := MakeScratch(d, b);
    if !ok { return; }
    ghost var g := d.fs;
    forall n | n in b.profile.scratch ensures b.work + [n] in g.names { ScratchExists(fs, g, b, n); }
    ghost var given;
    ok, given := HandAll(d, b, g);
  }

  lemma {:induction false} ScratchExists(fs: Fs, g: Fs, b: Build, n: string)
    requires Screened(fs, b) && NoneExists(fs, b) && b.profile.Valid() && g == Made(fs, b) && n in b.profile.scratch
    ensures b.work + [n] in g.names
  {
    if n in b.profile.created {
      var p := b.work + [n];
      assert p[|b.work|] == n;
      NewNamesAt(b.work, b.profile.created, fs.next, p);
    }
  }

  // ----- What a successful prepare means -----

  /** The state a successful `prepare` leaves. */
  ghost function Result(fs: Fs, b: Build): Fs
    requires fs.Has(b.work)
  {
    Handed(Made(fs, b), ScratchInodes(Made(fs, b), b), b)
  }

  /** The owner that counts as root is not the build's uid or gid. */
  ghost predicate Separate(b: Build) { b.owner.0 != b.uid && b.owner.1 != b.gid }

  /** Names the ownership scan looks at: walked from the root, on the root's device. */
  ghost predicate InView(fs: Fs, p: Path) {
    Walked(fs, [], p) && fs.Has(p) && fs.Has([]) && fs.At(p).dev == fs.At([]).dev
  }

  lemma {:induction false} MadeTree(fs: Fs, b: Build)
    requires fs.Tree() && b.profile.Valid() && Accepts(fs, b)
    ensures Made(fs, b).Tree() && KeepsOld(fs, Made(fs, b))
  {
    var names := b.profile.created;
    var dev := fs.At(b.work).dev;
    assert names[..|names|] == names;
    MkdirAllTree(fs, b, names, |names|, dev);
    OldKept(fs, b, names, dev);
  }

  lemma {:induction false} OldNamesWalkTheSame(fs: Fs, g: Fs, top: Path, p: Path)
    requires fs.Tree() && g.Tree() && KeepsOld(fs, g) && p in fs.names && top in fs.names
    ensures Walked(g, top, p) <==> Walked(fs, top, p)
    decreases |p|
  {
    if Below(top, p) {
      WalkedStep(fs, top, p);
      WalkedStep(g, top, p);
      if Parent(p) != top {
        OldNamesWalkTheSame(fs, g, top, Parent(p));
      }
    }
  }

  /** After a successful `prepare`, a name in view belongs to the build exactly when its inode is one of the
      scratch inodes. */
  lemma {:induction false} OwnedIsScratchInode(fs: Fs, b: Build, p: Path)
    requires fs.Tree() && b.profile.Valid() && Separate(b) && Accepts(fs, b) && p in Made(fs, b).names
    requires InView(Made(fs, b), p)
    ensures Result(fs, b).Has(p)
    ensures OwnedBy(Result(fs, b).At(p), b) <==> Made(fs, b).names[p] in ScratchInodes(Made(fs, b), b)
  {
    var g := Made(fs, b);
    MadeTree(fs, b);
    if p in fs.names {
      OldNamesWalkTheSame(fs, g, [], p);
      assert !OwnedEntry(fs, b, p);
    } else {
      NewIsScratch(fs, b, b.profile.created, fs.At(b.work).dev, p);
    }
  }

  /** Every scratch path ends up with exactly the build's uid and gid. */
  lemma {:induction false} ScratchIsOwned(fs: Fs, b: Build, p: Path)
    requires fs.Tree() && b.profile.Valid() && Accepts(fs, b)
    requires ScratchPath(Made(fs, b), b, p)
    ensures Result(fs, b).Has(p) && Result(fs, b).At(p).uid == b.uid && Result(fs, b).At(p).gid == b.gid
  {
    MadeTree(fs, b);
    assert p in Made(fs, b).names && Made(fs, b).names[p] in ScratchInodes(Made(fs, b), b);
  }

  /** No name in view outside the scratch trees is a second name of a scratch file. */
  ghost predicate NoOutsideLinks(fs: Fs, b: Build) {
    forall p, q :: p in fs.names && q in fs.names && OutsideLink(fs, b, p, q) ==> ScratchPath(fs, b, p)
  }

  /** `p` is in view and names the same file as the scratch path `q`. */
  ghost predicate OutsideLink(fs: Fs, b: Build, p: Path, q: Path)
    requires p in fs.names && q in fs.names
  {
    InView(fs, p) && fs.names[p] == fs.names[q] && ScratchPath(fs, b, q)
  }

  lemma PrefixNamed(fs: Fs, top: Path, p: Path)
    requires fs.Tree() && p in fs.names && Below(top, p)
    ensures top in fs.names
    decreases |p|
  {
    if Parent(p) == top {
      assert Parent(p) in fs.names;
    } else {
      assert Below(top, Parent(p)) by { assert top == p[..|top|]; }
      PrefixNamed(fs, top, Parent(p));
    }
  }

  /** Making the directories puts no old name into a scratch tree and takes none out. */
  lemma {:induction false} ScratchPathKept(fs: Fs, g: Fs, b: Build, p: Path)
    requires fs.Tree() && g.Tree() && KeepsOld(fs, g) && p in fs.names
    ensures ScratchPath(g, b, p) <==> ScratchPath(fs, b, p)
  {
    forall n | n in b.profile.scratch ensures InTree(g, b.work + [n], p) <==> InTree(fs, b.work + [n], p) {
      var top := b.work + [n];
      if Below(top, p) {
        PrefixNamed(fs, top, p);
        OldNamesWalkTheSame(fs, g, top, p);
      }
    }
  }

  lemma {:induction false} InViewKept(fs: Fs, g: Fs, p: Path)
    requires fs.Tree() && g.Tree() && KeepsOld(fs, g) && p in fs.names
    ensures InView(g, p) <==> InView(fs, p)
  {
    OldNamesWalkTheSame(fs, g, [], p);
  }

  /** A new directory is a scratch path, and no old name names it. */
  lemma {:induction false} NewNameIsScratch(fs: Fs, b: Build, p: Path)
    requires fs.Tree() && b.profile.Valid() && Accepts(fs, b) && p in Made(fs, b).names && p !in fs.names
    ensures ScratchPath(Made(fs, b), b, p) && Made(fs, b).names[p] >= fs.next
  {
    NewIsScratch(fs, b, b.profile.created, fs.At(b.work).dev, p);
    NewNamesAt(b.work, b.profile.created, fs.next, p);
    assert InTree(Made(fs, b), b.work + [p[|b.work|]], p);
  }

  /** In the tree with the directories made: a name in view that shares a scratch inode is a scratch path. */
  ghost predicate LinksInside(g: Fs, b: Build) {
    forall p :: p in g.names && InView(g, p) && g.names[p] in ScratchInodes(g, b) ==> ScratchPath(g, b, p)
  }

  lemma {:induction false} LinkedInside(fs: Fs, b: Build, p: Path)
    requires fs.Tree() && b.profile.Valid() && Accepts(fs, b) && NoOutsideLinks(fs, b) && p in Made(fs, b).names
    requires InView(Made(fs, b), p) && Made(fs, b).names[p] in ScratchInodes(Made(fs, b), b)
    ensures ScratchPath(Made(fs, b), b, p)
  {
    var g := Made(fs, b);
    MadeTree(fs, b);
    if p !in fs.names {
      NewNameIsScratch(fs, b, p);
    } else {
      var q :| q in g.names && ScratchPath(g, b, q) && g.names[q] == g.names[p];
      assert g.names[p] == fs.names[p] < fs.next;
      if q !in fs.names { NewNameIsScratch(fs, b, q); }
      InViewKept(fs, g, p);
      ScratchPathKept(fs, g, b, q);
      ScratchPathKept(fs, g, b, p);
      assert OutsideLink(fs, b, p, q);
    }
  }

  lemma {:induction false} LinkSurvives(fs: Fs, b: Build, p: Path, q: Path)
    requires fs.Tree() && b.profile.Valid() && Accepts(fs, b) && LinksInside(Made(fs, b), b)
    requires p in fs.names && q in fs.names && OutsideLink(fs, b, p, q)
    ensures ScratchPath(fs, b, p)
  {
    var g := Made(fs, b);
    MadeTree(fs, b);
    InViewKept(fs, g, p);
    ScratchPathKept(fs, g, b, q);
    ScratchPathKept(fs, g, b, p);
    assert g.names[q] in ScratchInodes(g, b);
  }

  /** Making the directories neither adds nor removes an outside link. */
  lemma {:induction false} LinksSeenBefore(fs: Fs, b: Build)
    requires fs.Tree() && b.profile.Valid() && Accepts(fs, b)
    ensures LinksInside(Made(fs, b), b) <==> NoOutsideLinks(fs, b)
  {
    if NoOutsideLinks(fs, b) {
      var g := Made(fs, b);
      forall p | p in g.names && InView(g, p) && g.names[p] in ScratchInodes(g, b) ensures ScratchPath(g, b, p) {
        LinkedInside(fs, b, p);
      }
    }
    if LinksInside(Made(fs, b), b) {
      forall p, q | p in fs.names && q in fs.names && OutsideLink(fs, b, p, q) ensures ScratchPath(fs, b, p) {
        LinkSurvives(fs, b, p, q);
      }
    }
  }

  /** Ownership is exactly the scratch trees if and only if no scratch file is hard-linked from outside them. */
  lemma {:induction false} ExactOwnership(fs: Fs, b: Build)
    requires fs.Tree() && b.profile.Valid() && Separate(b) && Accepts(fs, b)
    ensures OwnsExactlyScratch(fs, b) <==> NoOutsideLinks(fs, b)
  {
    LinksSeenBefore(fs, b);
    var g := Made(fs, b);
    forall p | p in g.names && InView(g, p)
      ensures Result(fs, b).Has(p) && (OwnedBy(Result(fs, b).At(p), b) <==> g.names[p] in ScratchInodes(g, b))
    {
      OwnedIsScratchInode(fs, b, p);
    }
    OwnershipByInode(fs, b);
  }

  /** After `prepare`, a name in view belongs to the build exactly when it is a scratch path. */
  ghost predicate OwnsExactlyScratch(fs: Fs, b: Build)
    requires fs.Has(b.work)
  {
    forall p :: p in Made(fs, b).names && InView(Made(fs, b), p) ==>
      Result(fs, b).Has(p) && (OwnedBy(Result(fs, b).At(p), b) <==> ScratchPath(Made(fs, b), b, p))
  }

  lemma OwnershipByInode(fs: Fs, b: Build)
    requires fs.Has(b.work)
    requires forall p :: p in Made(fs, b).names && InView(Made(fs, b), p) ==>
      Result(fs, b).Has(p) &&
      (OwnedBy(Result(fs, b).At(p), b) <==> Made(fs, b).names[p] in ScratchInodes(Made(fs, b), b))
    ensures OwnsExactlyScratch(fs, b) <==> LinksInside(Made(fs, b), b)
  {
  }

  /** Write access of a process with the build's uid and gid and no other group. */
  predicate WritableBy(i: Inode, b: Build) {
    if i.uid == b.uid then i.mode & 0x080 != 0
    else if i.gid == b.gid then i.mode & 0x010 != 0
    else i.mode & 0x002 != 0
  }

  /** A non-symlink entry of a read-only tree is writable by the build only as a second name of an owner-writable
      scratch file. */
  lemma {:induction false} ReadOnlyStaysReadOnly(fs: Fs, b: Build, n: string, p: Path)
    requires fs.Tree() && b.profile.Valid() && Separate(b) && Accepts(fs, b)
    requires n in b.profile.readonly && InTree(fs, b.work + [n], p) && fs.Has(p) && fs.At(p).kind != Symlink
    ensures Result(fs, b).Has(p)
    ensures WritableBy(Result(fs, b).At(p), b)
       <==> fs.names[p] in ScratchInodes(Made(fs, b), b) && fs.At(p).mode & 0x080 != 0
    ensures fs.names[p] !in ScratchInodes(Made(fs, b), b) ==> Result(fs, b).At(p) == fs.At(p)
  {
    MadeTree(fs, b);
    assert CleanEntry(fs.At(p), b.owner);
    NoWriteBits(fs.At(p).mode);
  }

  lemma NoWriteBits(m: Mode)
    ensures m & 0x012 == 0 ==> m & 0x010 == 0 && m & 0x002 == 0
  {
  }

  /** With the whole tree on the top's device, the walk misses nothing below it. */
  lemma {:induction false} WalkIsWholeTree(fs: Fs, top: Path, p: Path)
    requires fs.Tree() && top in fs.names
    requires forall q :: q in fs.names && Below(top, q) && fs.IsDir(q) ==> Kept(fs, top, q)
    ensures InTree(fs, top, p) <==> p in fs.names && (p == top || Below(top, p))
    decreases |p|
  {
    if p in fs.names && Below(top, p) {
      WalkedStep(fs, top, p);
      if Parent(p) != top {
        assert Below(top, Parent(p));
        WalkIsWholeTree(fs, top, Parent(p));
      }
    }
  }
}
