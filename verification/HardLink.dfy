/** A hard link into a scratch tree defeats the ownership promise of `prepare`
    (build_files/firewall/snitchwatch-system-unpriv.py): an input and what becomes of it. */
module HardLink {
  import opened BuildTree
  import opened Prepare

  /** Files and directories of root that nobody else may write. */
  predicate PlainInode(i: Inode) {
    (i.kind == Directory || i.kind == Regular) && CleanEntry(i, (0, 0))
  }

  /** A tree of such entries with the directories the profile asks for. */
  ghost predicate PlainTree(fs: Fs, b: Build) {
    && fs.Tree() && b.profile.Valid() && b.owner == (0, 0) && b.uid != 0 && b.gid != 0
    && (forall i :: i in fs.inodes ==> PlainInode(fs.inodes[i]))
    && fs.IsDir(b.work) && fs.IsDir(Parent(b.work)) && NoneExists(fs, b)
    && (forall n :: n in b.profile.readonly ==> fs.Has(b.work + [n]))
    && (forall n :: n in b.profile.scratch && n !in b.profile.created ==> fs.IsDir(b.work + [n]))
  }

  lemma {:induction false} MadeIsPlain(fs: Fs, b: Build, p: Path)
    requires PlainTree(fs, b) && p in Made(fs, b).names
    ensures Made(fs, b).Tree() && KeepsOld(fs, Made(fs, b)) && Handable(Made(fs, b), p)
  {
    MadeAll(fs, b, fs.At(b.work).dev);
    var g, i := Made(fs, b), Made(fs, b).names[p];
    assert i in fs.inodes ==> g.inodes[i] == fs.inodes[i];
    assert i !in fs.inodes ==> g.inodes[i] == NewDir(b, fs.At(b.work).dev);
  }

  lemma {:induction false} PlainTreeAccepted(fs: Fs, b: Build)
    requires PlainTree(fs, b)
    ensures Accepts(fs, b)
  {
    forall n, p | n in b.profile.scratch && InTree(Made(fs, b), b.work + [n], p) ensures Handable(Made(fs, b), p) {
      MadeIsPlain(fs, b, p);
    }
  }

  /** A second name of a scratch file in a read-only tree: `prepare` goes through and the build can write it there. */
  lemma {:induction false} LinkBecomesWritable(fs: Fs, b: Build, n: string, p: Path, m: string, q: Path)
    requires PlainTree(fs, b) && n in b.profile.readonly && p in fs.names && Below(b.work + [n], p)
    requires Parent(p) == b.work + [n]
    requires m in b.profile.scratch && q in fs.names && Below(b.work + [m], q) && Parent(q) == b.work + [m]
    requires fs.names[p] == fs.names[q] && fs.At(p).mode & 0x080 != 0
    ensures Accepts(fs, b) && InTree(fs, b.work + [n], p) && Result(fs, b).Has(p)
    ensures WritableBy(Result(fs, b).At(p), b)
  {
    PlainTreeAccepted(fs, b);
    MadeIsPlain(fs, b, b.work);
    var g := Made(fs, b);
    WalkedStep(fs, b.work + [n], p);
    WalkedStep(g, b.work + [m], q);
    assert ScratchPath(g, b, q);
    assert g.names[q] in ScratchInodes(g, b);
    ReadOnlyStaysReadOnly(fs, b, n, p);
  }

  const BUILD := Build(["w"], BRIDGE, 65534, 65534, (0, 0))

  function RootDir(): Inode { Inode(Directory, 0, 0, 0x1ED, 0) }

  function RootFile(): Inode { Inode(Regular, 0, 0, 0x1A4, 0) }

  /** A root, three directories and one file with two names. */
  function SixNames(w: Path, a: Path, c: Path, p: Path, q: Path): Fs {
    Fs(map[[] := 0, w := 1, a := 2, c := 3, p := 4, q := 4],
       map[0 := RootDir(), 1 := RootDir(), 2 := RootDir(), 3 := RootDir(), 4 := RootFile()], 5)
  }

  lemma {:induction false} SixNamesTree(w: Path, a: Path, c: Path, p: Path, q: Path)
    requires |w| == 1 && |a| == 2 && |c| == 2 && |p| == 3 && |q| == 3 && a != c && p != q
    requires Parent(w) == [] && Parent(a) == w && Parent(c) == w && Parent(p) == a && Parent(q) == c
    ensures var fs := SixNames(w, a, c, p, q);
            && fs.names[[]] == 0 && fs.names[w] == 1 && fs.names[a] == 2 && fs.names[c] == 3
            && fs.names[p] == 4 == fs.names[q]
            && fs.Tree() && fs.IsDir([]) && fs.IsDir(w) && fs.IsDir(a) && fs.IsDir(c)
            && (forall n :: n in fs.names && |n| == 2 ==> n == a || n == c)
  {
    var fs := SixNames(w, a, c, p, q);
    assert fs.names[[]] == 0 && fs.names[w] == 1 && fs.names[a] == 2 && fs.names[c] == 3 && fs.names[p] == 4;
  }

  lemma PlainInodes()
    ensures PlainInode(RootDir()) && PlainInode(RootFile()) && RootFile().mode & 0x080 != 0
  {
  }

  /** The paths: WORK/s/f and WORK/c/f. */
  function Linked(s: string, c: string): Fs { SixNames(["w"], ["w", s], ["w", c], ["w", s, "f"], ["w", c, "f"]) }

  lemma {:induction false} LinkedTree(s: string, c: string)
    requires s != c
    ensures var fs := Linked(s, c);
            && fs.Tree() && (forall i :: i in fs.inodes ==> PlainInode(fs.inodes[i]))
            && fs.IsDir([]) && fs.IsDir(["w"]) && fs.IsDir(["w", s]) && fs.IsDir(["w", c])
            && (forall p :: p in fs.names && |p| == 2 ==> p == ["w", s] || p == ["w", c])
            && fs.Has(["w", s, "f"]) && fs.Has(["w", c, "f"])
            && fs.names[["w", s, "f"]] == fs.names[["w", c, "f"]] == 4 && fs.inodes[4] == RootFile()
  {
    var a, b, p, q := ["w", s], ["w", c], ["w", s, "f"], ["w", c, "f"];
    assert a[1] != b[1] && p[1] != q[1];
    assert a[..1] == ["w"] && b[..1] == ["w"] && p[..2] == a && q[..2] == b && ["w"][..0] == [];
    SixNamesTree(["w"], a, b, p, q);
    PlainInodes();
  }

  lemma BridgeNames()
    ensures "source" != "bridge-cargo" && BRIDGE.Valid() && "source" in BRIDGE.readonly
    ensures "bridge-cargo" in BRIDGE.scratch
    ensures forall n :: n in BRIDGE.created ==> n != "source" && n != "bridge-cargo"
    ensures forall n :: n in BRIDGE.readonly ==> n == "source"
    ensures forall n :: n in BRIDGE.scratch && n !in BRIDGE.created ==> n == "bridge-cargo"
  {
    ProfilesValid();
    assert "source"[0] != "bridge-cargo"[0];
    assert BRIDGE.scratch[0] == "bridge-cargo" && BRIDGE.readonly[0] == "source";
    assert "dist"[0] != "source"[0] && "target"[0] != "source"[0] && "home"[0] != "source"[0];
    assert "dist"[0] != "bridge-cargo"[0] && "target"[0] != "bridge-cargo"[0] && "home"[0] != "bridge-cargo"[0];
    assert BRIDGE.created[0] == "dist" && BRIDGE.created[1] == "target" && BRIDGE.created[2] == "home";
  }

  lemma {:induction false} LinkedIsPlain(s: string, c: string)
    requires s == "source" && c == "bridge-cargo"
    ensures s in BRIDGE.readonly && c in BRIDGE.scratch && PlainTree(Linked(s, c), BUILD)
  {
    BridgeNames();
    LinkedTree(s, c);
    FreshBesides(s, c);
    UnderWork(s);
    UnderWork(c);
    assert Parent(["w"]) == [];
  }

  lemma FreshBesides(s: string, c: string)
    requires s != c && forall n :: n in BRIDGE.created ==> n != s && n != c
    ensures NoneExists(Linked(s, c), BUILD)
  {
    LinkedTree(s, c);
    forall n | n in BRIDGE.created ensures BUILD.work + [n] !in Linked(s, c).names {
      assert (BUILD.work + [n])[1] == n && ["w", s][1] == s && ["w", c][1] == c;
    }
  }

  lemma UnderWork(n: string)
    ensures BUILD.work + [n] == ["w", n] && Parent(["w", n, "f"]) == ["w", n] && Below(["w", n], ["w", n, "f"])
  {
    assert ["w", n, "f"][..2] == ["w", n];
  }

  /** The input: with `source/f` and `bridge-cargo/f` one file, `prepare` goes through and the build owns the
      source file. */
  lemma {:induction false} HardLinkDefeatsOwnership()
    ensures var fs, p := Linked("source", "bridge-cargo"), ["w", "source", "f"];
            && fs.Tree() && Accepts(fs, BUILD) && InTree(fs, ["w", "source"], p)
            && Result(fs, BUILD).Has(p) && WritableBy(Result(fs, BUILD).At(p), BUILD)
  {
    LinkedIsPlain("source", "bridge-cargo");
    LinkedFile("source", "bridge-cargo");
  }

  lemma {:induction false} LinkedFile(s: string, c: string)
    requires s != c && s in BRIDGE.readonly && c in BRIDGE.scratch && PlainTree(Linked(s, c), BUILD)
    ensures var fs, p := Linked(s, c), ["w", s, "f"];
            && fs.Tree() && Accepts(fs, BUILD) && InTree(fs, ["w", s], p)
            && Result(fs, BUILD).Has(p) && WritableBy(Result(fs, BUILD).At(p), BUILD)
  {
    LinkedTree(s, c);
    UnderWork(s);
    UnderWork(c);
    PlainInodes();
    LinkBecomesWritable(Linked(s, c), BUILD, s, ["w", s, "f"], c, ["w", c, "f"]);
  }
}
