/** Ownership of the build tree: `walk`, `owned_by_build_ids`, `source_problems` and `prepare`
    (build_files/firewall/snitchwatch-system-unpriv.py).

    Owner and mode belong to an inode; a regular file may have several names. */
module BuildTree {
  type Path = seq<string>
  type Mode = bv12

  datatype Kind = Directory | Regular | Symlink | Special

  datatype Inode = Inode(kind: Kind, uid: nat, gid: nat, mode: Mode, dev: nat)

  /** Inode numbers below `next` are in use. */
  datatype Fs = Fs(names: map<Path, nat>, inodes: map<nat, Inode>, next: nat) {
    /** Every name has an inode, every name but the root lies in a directory. */
    ghost predicate Tree() {
      && [] in names
      && (forall p :: p in names ==> names[p] in inodes)
      && (forall i :: i in inodes ==> i < next)
      && forall p :: p in names && p != [] ==> Parent(p) in names && inodes[names[Parent(p)]].kind == Directory
    }

    predicate Has(p: Path) { p in names && names[p] in inodes }

    /** lstat. */
    function At(p: Path): Inode
      requires Has(p)
    {
      inodes[names[p]]
    }

    predicate IsDir(p: Path) { Has(p) && At(p).kind == Directory }
  }

  const EMPTY_DIR: Mode := 0x1ED // 0755

  /** The root is its own parent. */
  function Parent(p: Path): Path { if p == [] then [] else p[..|p| - 1] }

  predicate Below(top: Path, p: Path) { top < p }

  const SKIP: set<Path> := {["proc"], ["sys"], ["dev"]}

  // ----- walk -----

  /** A directory the walk descends into: not skipped, and on the top's own device. */
  predicate Kept(fs: Fs, top: Path, q: Path) {
    fs.Has(top) && fs.IsDir(q) && q !in SKIP && fs.At(q).dev == fs.At(top).dev
  }

  /** An entry of the walk: everything between the top and it was descended into. */
  ghost predicate Walked(fs: Fs, top: Path, p: Path) {
    && p in fs.names && Below(top, p)
    && forall q :: Below(top, q) && Below(q, p) ==> Kept(fs, top, q)
  }

  lemma {:induction false} WalkedStep(fs: Fs, top: Path, p: Path)
    requires fs.Tree() && p in fs.names && Below(top, p)
    ensures Parent(p) == top ==> Walked(fs, top, p)
    ensures Parent(p) != top ==> (Walked(fs, top, p) <==> Walked(fs, top, Parent(p)) && Kept(fs, top, Parent(p)))
  {
    var b := Parent(p);
    forall q ensures Below(q, p) <==> q == b || Below(q, b) {
      if Below(q, p) { assert q == p[..|q|]; }
      if Below(q, b) { assert q == b[..|q|] == p[..|q|]; }
    }
    if b != top {
      assert Below(top, b) by { assert top == p[..|top|]; }
    }
  }

  method Listing(fs: Fs, base: Path) returns (found: seq<Path>)
    ensures forall p :: p in found <==> p in fs.names && p != [] && Parent(p) == base
  {
    found := [];
    var todo := fs.names.Keys;
    while todo != {}
      invariant todo <= fs.names.Keys
      invariant forall p :: p in found <==> p in fs.names && p !in todo && p != [] && Parent(p) == base
      decreases |todo|
    {
      var p :| p in todo;
      todo := todo - {p};
      if p != [] && Parent(p) == base {
        found := found + [p];
      }
    }
  }

  /** The entries under `top`; every directory can be listed by root. */
  method Walk(fs: Fs, top: Path) returns (entries: seq<Path>)
    requires fs.Tree() && top in fs.names
    ensures forall p :: p in entries <==> Walked(fs, top, p)
  {
    entries := [];
    if !fs.IsDir(top) {
      forall p | Below(top, p) ensures p !in fs.names { NothingBelowNonDirectory(fs, top, p); }
      return;
    }
    var pending: set<Path> := {top};
    ghost var done: set<Path> := {};
    while pending != {}
      invariant Walking(fs, top, pending, done, entries)
      decreases fs.names.Keys - done
    {
      var base :| base in pending;
      var found := Listing(fs, base);
      WalkAdvances(fs, top, pending, done, entries, base, found);
      assert base in fs.names.Keys - done;
      pending := pending - {base} + set p | p in found && Kept(fs, top, p);
      entries := entries + found;
      done := done + {base};
    }
    assert pending + done == done;
    forall p ensures p in entries <==> Walked(fs, top, p) {
      if Walked(fs, top, p) { WalkReaches(fs, top, done, entries, p); }
      if p in entries { EntryIsWalked(fs, top, pending, done, entries, p); }
    }
  }

  /** The known directories: the top, and directories walked to from one already listed. */
  ghost predicate Directories(fs: Fs, top: Path, known: set<Path>, done: set<Path>) {
    forall b :: b in known ==> b == top || (Walked(fs, top, b) && Kept(fs, top, b) && Parent(b) in done)
  }

  /** The entries are everything in the listed directories. */
  ghost predicate Listed(fs: Fs, done: set<Path>, entries: seq<Path>) {
    forall p :: p in entries <==> p in fs.names && p != [] && Parent(p) in done
  }

  /** Directories met on the way are known. */
  ghost predicate Covered(fs: Fs, top: Path, entries: seq<Path>, known: set<Path>) {
    forall p :: p in entries && Kept(fs, top, p) ==> p in known
  }

  /** Invariant of the walk: `done` are the directories already listed. */
  ghost predicate Walking(fs: Fs, top: Path, pending: set<Path>, done: set<Path>, entries: seq<Path>) {
    && pending !! done && pending + done <= fs.names.Keys && top in pending + done
    && Directories(fs, top, pending + done, done) && Listed(fs, done, entries)
    && Covered(fs, top, entries, pending + done)
  }

  lemma {:induction false} EntryIsWalked(fs: Fs, top: Path, pending: set<Path>, done: set<Path>, entries: seq<Path>,
                                         p: Path)
    requires fs.Tree() && Walking(fs, top, pending, done, entries) && p in entries
    ensures Walked(fs, top, p)
  {
    var b := Parent(p);
    assert b in pending + done;
    assert Below(top, p);
    WalkedStep(fs, top, p);
  }

  lemma {:induction false} NewlyFound(fs: Fs, top: Path, pending: set<Path>, done: set<Path>, entries: seq<Path>,
                                      base: Path, p: Path)
    requires fs.Tree() && Walking(fs, top, pending, done, entries) && base in pending
    requires p in fs.names && p != [] && Parent(p) == base
    ensures Walked(fs, top, p) && p !in pending + done
  {
    assert base in pending + done;
    assert Below(top, p);
    WalkedStep(fs, top, p);
  }

  lemma {:induction false} EntriesGrow(fs: Fs, done: set<Path>, entries: seq<Path>, base: Path, found: seq<Path>)
    requires Listed(fs, done, entries)
    requires forall p :: p in found <==> p in fs.names && p != [] && Parent(p) == base
    ensures Listed(fs, done + {base}, entries + found)
  {
    forall p ensures p in entries + found <==> p in fs.names && p != [] && Parent(p) in done + {base} {
      assert p in entries + found <==> p in entries || p in found;
    }
  }

  lemma {:induction false} KnownGrows(fs: Fs, top: Path, known: set<Path>, done: set<Path>, entries: seq<Path>,
                                      base: Path, found: seq<Path>, more: set<Path>)
    requires Directories(fs, top, known, done) && Covered(fs, top, entries, known)
    requires forall p :: p in more <==> p in found && Kept(fs, top, p)
    requires forall p :: p in more ==> Walked(fs, top, p) && Parent(p) == base
    ensures Directories(fs, top, known + more, done + {base}) && Covered(fs, top, entries + found, known + more)
  {
  }

  lemma {:induction false} WalkAdvances(fs: Fs, top: Path, pending: set<Path>, done: set<Path>, entries: seq<Path>,
                                        base: Path, found: seq<Path>)
    requires fs.Tree() && Walking(fs, top, pending, done, entries) && base in pending
    requires forall p :: p in found <==> p in fs.names && p != [] && Parent(p) == base
    ensures Walking(fs, top, pending - {base} + (set p | p in found && Kept(fs, top, p)), done + {base},
                    entries + found)
  {
    var more := set p | p in found && Kept(fs, top, p);
    forall p | p in more ensures Walked(fs, top, p) && p !in pending + done && Parent(p) == base && p in fs.names {
      NewlyFound(fs, top, pending, done, entries, base, p);
    }
    EntriesGrow(fs, done, entries, base, found);
    KnownGrows(fs, top, pending + done, done, entries, base, found, more);
    assert base !in more by { assert base in pending + done; }
    assert (pending - {base} + more) + (done + {base}) == pending + done + more;
  }

  lemma {:induction false} NothingBelowNonDirectory(fs: Fs, top: Path, p: Path)
    requires fs.Tree() && top in fs.names && !fs.IsDir(top) && Below(top, p)
    ensures p !in fs.names
    decreases |p|
  {
    if p in fs.names && Parent(p) != top {
      assert Below(top, Parent(p));
      NothingBelowNonDirectory(fs, top, Parent(p));
    }
  }

  lemma {:induction false} WalkReaches(fs: Fs, top: Path, done: set<Path>, entries: seq<Path>, p: Path)
    requires fs.Tree() && top in done && Walked(fs, top, p)
    requires Listed(fs, done, entries) && Covered(fs, top, entries, done)
    ensures p in entries
    decreases |p|
  {
    WalkedStep(fs, top, p);
    if Parent(p) != top {
      WalkReaches(fs, top, done, entries, Parent(p));
    }
  }
}
