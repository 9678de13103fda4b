/** Stage-boundary guard of the split build: `allowlist`, `ancestors`, `check` and `export`
    (build_files/firewall/snitchwatch-system-handoff.py).

    A tree maps paths relative to its root, as lists of components, to what lstat shows there. */
module Handoff {
  import opened Strings

  type Path = seq<string>
  type Mode = bv12
  type Owner = (nat, nat)

  /** Outcome of listxattr: names, a filesystem without xattrs, or any other error. */
  datatype Xattrs = Names(names: set<string>) | Unsupported | Unlistable

  datatype Meta = Meta(mode: Mode, owner: Owner, xattrs: Xattrs)

  datatype Node =
    | File(meta: Meta, data: Bytes, links: nat)
    | Dir(meta: Meta)
    | Other(meta: Meta) // symbolic link or special file

  type Tree = map<Path, Node>

  const EXECUTABLE: Mode := 0x1ED // 0755
  const PLAIN: Mode := 0x1A4 // 0644
  const SPECIAL_BITS: Mode := 0xE00 // setuid, setgid, sticky
  const SHARED_WRITE: Mode := 0x012 // group and other write

  const REFUSED_XATTRS: set<string> := {"security.capability", "system.posix_acl_access", "system.posix_acl_default"}

  /** Every entry but the root lies in a directory. */
  ghost predicate IsTree(t: Tree) {
    [] in t && forall p :: p in t && p != [] ==> p[..|p| - 1] in t && t[p[..|p| - 1]].Dir?
  }

  // ----- The allowlist -----

  datatype Kind = Scanner | Bridge(version: string) | BridgeRebuild(version: string)
    | Daemon(required: set<Path>, manifest: Path, candidate: Path, verifier: Path)

  const SCANNER_BINARIES: set<string> := {"snitchwatch-scanner-privileged", "snitchwatch-scanner-broker"}
  const SCANNER_FILES: set<string> := {"provenance.json", "source-inputs.json", "dependency-closure.json",
    "THIRD-PARTY-LICENSES.md", "LICENSE", "build.log", "repro.log", "test.log",
    "snitchwatch-scanner-privileged.ldd", "snitchwatch-scanner-broker.ldd"}

  function Tarball(version: string): string { "snitchwatch-bridge-" + version + "-x86_64.tar.gz" }

  /** Exact mode of everything a kind may hand over. */
  function Allowlist(kind: Kind): map<Path, Mode> {
    match kind
    case Scanner =>
      (map n | n in SCANNER_BINARIES :: [n] := EXECUTABLE) + (map n | n in SCANNER_FILES :: [n] := PLAIN)
    case Bridge(v) =>
      map[[Tarball(v)] := PLAIN, [Tarball(v) + ".sha256"] := PLAIN, ["build.log"] := PLAIN, ["repro.log"] := PLAIN]
    case BridgeRebuild(v) => map[[Tarball(v)] := PLAIN]
    case Daemon(required, manifest, candidate, verifier) =>
      map p | p in required + {manifest} :: if p == candidate || p == verifier then EXECUTABLE else PLAIN
  }

  /** Proper ancestors of the names, the root excluded. */
  function Ancestors(names: set<Path>): set<Path> {
    set p, k | p in names && 0 < k < |p| :: p[..k]
  }

  // ----- check -----

  predicate XattrsAllowed(x: Xattrs) {
    match x
    case Names(names) => names !! REFUSED_XATTRS
    case Unsupported => true
    case Unlistable => false
  }

  /** An entry that may stand at path `p` of a handoff. */
  predicate EntryAllowed(p: Path, node: Node, expected: map<Path, Mode>, owner: Owner) {
    && node.meta.owner == owner
    && node.meta.mode & SPECIAL_BITS == 0
    && XattrsAllowed(node.meta.xattrs)
    && match node
       case Dir(m) => (p == [] || p in Ancestors(expected.Keys)) && m.mode & SHARED_WRITE == 0
       case File(m, _, links) => p in expected && m.mode == expected[p] && links == 1
       case Other(_) => false
  }

  /** The regular files of a tree. */
  function Files(t: Tree): set<Path> { set p | p in t && t[p].File? }

  ghost predicate AllAllowed(t: Tree, expected: map<Path, Mode>, owner: Owner) {
    forall p :: p in t ==> EntryAllowed(p, t[p], expected, owner)
  }

  /** What the receiving side accepts: the allowlist, nothing else, and nothing less. */
  ghost predicate Accepts(t: Tree, expected: map<Path, Mode>, owner: Owner) {
    [] in t && t[[]].Dir? && AllAllowed(t, expected, owner) && Files(t) == expected.Keys
  }

  /** The tests on one entry, in order. */
  method CheckEntry(p: Path, node: Node, expected: map<Path, Mode>, dirs: set<Path>, owner: Owner) returns (ok: bool)
    requires dirs == Ancestors(expected.Keys)
    ensures ok <==> EntryAllowed(p, node, expected, owner)
  {
    if node.meta.owner != owner { return false; }
    if node.meta.mode & SPECIAL_BITS != 0 { return false; }
    if !XattrsAllowed(node.meta.xattrs) { return false; }
    match node {
      case Dir(m) =>
        if p != [] && p !in dirs { return false; }
        return m.mode & SHARED_WRITE == 0;
      case File(m, _, links) =>
        if p !in expected { return false; }
        if m.mode != expected[p] { return false; }
        return links == 1;
      case Other(_) =>
        return false;
    }
  }

  /** The loop over the walk, which may come in any order. */
  method CheckEntries(t: Tree, entries: seq<Path>, expected: map<Path, Mode>, owner: Owner)
    returns (ok: bool, found: set<Path>)
    requires forall p :: p in entries <==> p in t
    ensures ok <==> AllAllowed(t, expected, owner)
    ensures ok ==> found == Files(t)
  {
    var dirs := Ancestors(expected.Keys);
    found := {};
    for i := 0 to |entries|
      invariant forall p :: p in entries[..i] ==> EntryAllowed(p, t[p], expected, owner)
      invariant forall p :: p in found <==> p in entries[..i] && t[p].File?
    {
      var p := entries[i];
      assert p in entries && entries[..i + 1] == entries[..i] + [p];
      ok := CheckEntry(p, t[p], expected, dirs, owner);
      if !ok { return; }
      if t[p].File? {
        found := found + {p};
      }
    }
    assert entries[..|entries|] == entries;
    return true, found;
  }

  /** `check`. */
  method Check(t: Tree, entries: seq<Path>, expected: map<Path, Mode>, owner: Owner)
    returns (ok: bool, found: set<Path>)
    requires IsTree(t) && forall p :: p in entries <==> p in t
    ensures ok <==> Accepts(t, expected, owner)
    ensures ok ==> found == expected.Keys
  {
    if !t[[]].Dir? {
      return false, {};
    }
    ok, found := CheckEntries(t, entries, expected, owner);
    if !ok { return; }
    OnlyExpectedFound(t, expected, owner);
    var missing := expected.Keys - found;
    NoneMissing(found, expected.Keys);
    ok := missing == {};
  }

  lemma NoneMissing(found: set<Path>, wanted: set<Path>)
    requires found <= wanted
    ensures wanted - found == {} <==> found == wanted
  {
    if wanted - found == {} {
      forall p | p in wanted ensures p in found { assert p !in wanted - found; }
    }
  }

  lemma {:induction false} OnlyExpectedFound(t: Tree, expected: map<Path, Mode>, owner: Owner)
    requires AllAllowed(t, expected, owner)
    ensures Files(t) <= expected.Keys
  {
    forall p | p in Files(t) ensures p in expected { assert EntryAllowed(p, t[p], expected, owner); }
  }

  lemma {:induction false} PrefixesPresent(t: Tree, p: Path, k: nat)
    requires IsTree(t) && p in t && k < |p|
    ensures p[..k] in t && t[p[..k]].Dir?
    decreases |p|
  {
    if k < |p| - 1 {
      var q := p[..|p| - 1];
      PrefixesPresent(t, q, k);
      assert q[..k] == p[..k];
    }
  }

  /** An accepted tree has no room for anything else: its paths are the allowlist, its ancestors and the root,
      its directories exactly those ancestors. */
  lemma {:induction false} AcceptedIsExact(t: Tree, expected: map<Path, Mode>, owner: Owner)
    requires IsTree(t) && Accepts(t, expected, owner)
    ensures t.Keys == expected.Keys + Ancestors(expected.Keys) + {[]}
    ensures forall p :: p in t
              ==> (t[p].File? <==> p in expected) && (t[p].Dir? <==> p == [] || p in Ancestors(expected.Keys))
    ensures forall p :: p in expected ==> t[p].meta.mode == expected[p] && t[p].links == 1
  {
    var dirs := Ancestors(expected.Keys);
    forall p ensures Placed(t, expected, dirs, p) { AcceptedEntry(t, expected, owner, p); }
    AllPlaced(t, expected, dirs);
  }

  /** A path holds a file exactly if it is expected, and a directory exactly if something expected lies below. */
  ghost predicate Placed(t: Tree, expected: map<Path, Mode>, dirs: set<Path>, p: Path) {
    && (p in t <==> p in expected || p in dirs || p == [])
    && (p in expected ==> p in t && t[p].File? && t[p].meta.mode == expected[p] && t[p].links == 1)
    && (p in dirs || p == [] ==> p in t && t[p].Dir?)
  }

  lemma AllPlaced(t: Tree, expected: map<Path, Mode>, dirs: set<Path>)
    requires forall p :: Placed(t, expected, dirs, p)
    ensures t.Keys == expected.Keys + dirs + {[]}
    ensures forall p :: p in t ==> (t[p].File? <==> p in expected) && (t[p].Dir? <==> p == [] || p in dirs)
    ensures forall p :: p in expected ==> t[p].meta.mode == expected[p] && t[p].links == 1
  {
    forall p ensures p in t.Keys <==> p in expected.Keys + dirs + {[]} { assert Placed(t, expected, dirs, p); }
    forall p | p in t ensures (t[p].File? <==> p in expected) && (t[p].Dir? <==> p == [] || p in dirs) {
      assert Placed(t, expected, dirs, p);
    }
    forall p | p in expected ensures t[p].meta.mode == expected[p] && t[p].links == 1 {
      assert Placed(t, expected, dirs, p);
    }
  }

  lemma AcceptedEntry(t: Tree, expected: map<Path, Mode>, owner: Owner, p: Path)
    requires IsTree(t) && Accepts(t, expected, owner)
    ensures Placed(t, expected, Ancestors(expected.Keys), p)
  {
    if p in t { assert EntryAllowed(p, t[p], expected, owner); }
    if p in expected {
      assert p in Files(t);
      assert EntryAllowed(p, t[p], expected, owner);
    }
    if p in Ancestors(expected.Keys) { AncestorPresent(t, expected.Keys, p); }
  }

  lemma AncestorPresent(t: Tree, names: set<Path>, p: Path)
    requires IsTree(t) && names == Files(t) && p in Ancestors(names)
    ensures p in t && t[p].Dir?
  {
    var q, k :| q in names && 0 < k < |q| && p == q[..k];
    PrefixesPresent(t, q, k);
  }

  // ----- export -----

  /** What opening SOURCE/name without following a final link yields; a name that is absent here cannot be opened. */
  datatype Opened = Opened(regular: bool, links: nat, data: Bytes)

  type Source = map<Path, Opened>

  predicate Readable(source: Source, p: Path) { p in source && source[p].regular && source[p].links == 1 }

  function NewDir(me: Owner): Node { Dir(Meta(EXECUTABLE, me, Names({}))) }

  function NewFile(data: Bytes, mode: Mode, me: Owner): Node { File(Meta(mode, me, Names({})), data, 1) }

  /** The tree holding the given files and directories below the root. */
  function Built(files: set<Path>, dirs: set<Path>, expected: map<Path, Mode>, source: Source, me: Owner): Tree
    requires forall p :: p in files ==> p in expected && p in source
  {
    map p | p in files + dirs + {[]} :: if p in files then NewFile(source[p].data, expected[p], me) else NewDir(me)
  }

  /** No name is an ancestor of another, and none is the root itself. */
  ghost predicate PrefixFree(names: set<Path>) { [] !in names && names !! Ancestors(names) }

  class Stage {
    /** Empty while the destination does not exist. */
    var tree: Tree
    const me: Owner

    constructor (tree: Tree, me: Owner)
      ensures this.tree == tree && this.me == me
    {
      this.tree, this.me := tree, me;
    }

    /** mkdir(exist_ok=True) followed by chmod 0755. */
    method MakeDir(p: Path) returns (ok: bool)
      modifies this
      ensures ok <==> p !in old(tree) || old(tree)[p].Dir?
      ensures tree == if !ok then old(tree)
                      else old(tree)[p := if p in old(tree) then Dir(old(tree)[p].meta.(mode := EXECUTABLE))
                                     else NewDir(me)]
    {
      if p in tree && !tree[p].Dir? { return false; }
      tree := tree[p := if p in tree then Dir(tree[p].meta.(mode := EXECUTABLE)) else NewDir(me)];
      return true;
    }

    /** Exclusive creation, write, chmod. */
    method Create(p: Path, data: Bytes, mode: Mode) returns (ok: bool)
      modifies this
      ensures ok <==> p !in old(tree)
      ensures tree == if ok then old(tree)[p := NewFile(data, mode, me)] else old(tree)
    {
      if p in tree { return false; }
      tree := tree[p := NewFile(data, mode, me)];
      return true;
    }
  }

  lemma {:induction false} BuiltWithDir(files: set<Path>, dirs: set<Path>, expected: map<Path, Mode>, source: Source,
                                        me: Owner, p: Path)
    requires forall q :: q in files ==> q in expected && q in source
    requires p !in files && p != []
    ensures
      var t := Built(files, dirs, expected, source, me);
      Built(files, dirs + {p}, expected, source, me)
      == t[p := if p in t then Dir(t[p].meta.(mode := EXECUTABLE)) else NewDir(me)]
  {
  }

  lemma {:induction false} BuiltWithFile(files: set<Path>, dirs: set<Path>, expected: map<Path, Mode>, source: Source,
                                         me: Owner, p: Path)
    requires forall q :: q in files ==> q in expected && q in source
    requires p in expected && p in source && p !in files && p !in dirs && p != []
    ensures Built(files + {p}, dirs, expected, source, me)
         == Built(files, dirs, expected, source, me)[p := NewFile(source[p].data, expected[p], me)]
  {
  }

  /** The parents of one name, outermost first. */
  method MakeParents(stage: Stage, rel: Path, ghost files: set<Path>, ghost dirs: set<Path>,
                     ghost expected: map<Path, Mode>, ghost source: Source)
    returns (ok: bool, ghost now: set<Path>)
    requires forall p :: p in files ==> p in expected && p in source
    requires [] !in files && stage.tree == Built(files, dirs, expected, source, stage.me)
    modifies stage
    ensures ok <==> files !! Ancestors({rel})
    ensures ok ==> now == dirs + Ancestors({rel})
    ensures ok ==> stage.tree == Built(files, now, expected, source, stage.me)
  {
    now := dirs;
    var k := 1;
    assert Upper(rel, 1) == {};
    while k < |rel|
      invariant k == 1 || 1 < k <= |rel|
      invariant Upper(rel, k) !! files
      invariant now == dirs + Upper(rel, k)
      invariant stage.tree == Built(files, now, expected, source, stage.me)
    {
      var p := rel[..k];
      UpperStep(rel, k);
      ok := stage.MakeDir(p);
      if !ok { return; }
      BuiltWithDir(files, now, expected, source, stage.me, p);
      now := now + {p};
      k := k + 1;
    }
    UpperAll(rel, k);
    ok := true;
  }

  /** The first proper ancestors of a name. */
  ghost function Upper(rel: Path, k: nat): set<Path> { set j | 0 < j < k && j < |rel| :: rel[..j] }

  lemma UpperStep(rel: Path, k: nat)
    requires 0 < k < |rel|
    ensures Upper(rel, k + 1) == Upper(rel, k) + {rel[..k]} && rel[..k] in Ancestors({rel})
  {
  }

  lemma UpperAll(rel: Path, k: nat)
    requires k >= |rel|
    ensures Upper(rel, k) == Ancestors({rel})
  {
  }

  lemma {:induction false} AncestorsAppend(done: set<Path>, rel: Path)
    ensures Ancestors(done + {rel}) == Ancestors(done) + Ancestors({rel})
  {
  }

  /** `order` lists the allowlist, in whatever order. */
  ghost predicate ListingOf(order: seq<Path>, names: set<Path>) {
    && (forall p :: p in order <==> p in names)
    && forall i, j :: 0 <= i < j < |order| ==> order[i] != order[j]
  }

  function Elements(order: seq<Path>): set<Path> { set p | p in order }

  /** When `export` goes through. */
  ghost predicate Exportable(expected: map<Path, Mode>, source: Source) {
    PrefixFree(expected.Keys) && forall p :: p in expected ==> Readable(source, p)
  }

  /** One turn of the export loop: read, make the parents, create the file. */
  method ExportOne(stage: Stage, rel: Path, expected: map<Path, Mode>, source: Source, ghost files: set<Path>)
    returns (ok: bool)
    requires forall p :: p in files ==> p in expected && p in source
    requires [] !in files && rel in expected && rel !in files && files !! Ancestors(files)
    requires stage.tree == Built(files, Ancestors(files), expected, source, stage.me)
    modifies stage
    ensures ok <==> Readable(source, rel) && PrefixFree(files + {rel})
    ensures ok ==> stage.tree == Built(files + {rel}, Ancestors(files + {rel}), expected, source, stage.me)
  {
    AncestorsAppend(files, rel);
    if !Readable(source, rel) {
      return false;
    }
    ghost var dirs;
    ok, dirs := MakeParents(stage, rel, files, Ancestors(files), expected, source);
    if !ok { return; }
    NotItsOwnAncestor(rel);
    if rel !in dirs && rel != [] {
      BuiltWithFile(files, dirs, expected, source, stage.me, rel);
    }
    ok := stage.Create(rel, source[rel].data, expected[rel]);
  }

  lemma NotItsOwnAncestor(rel: Path)
    ensures rel !in Ancestors({rel}) && [] !in Ancestors({rel})
  {
  }

  lemma {:induction false} FewerNames(names: set<Path>, more: set<Path>)
    requires names <= more && PrefixFree(more)
    ensures PrefixFree(names)
  {
    assert Ancestors(names) <= Ancestors(more);
  }

  /** `export`. */
  method Export(stage: Stage, expected: map<Path, Mode>, order: seq<Path>, source: Source) returns (ok: bool)
    requires ListingOf(order, expected.Keys)
    modifies stage
    ensures ok <==> old(stage.tree) == map[] && Exportable(expected, source)
    ensures ok ==> stage.tree == Built(expected.Keys, Ancestors(expected.Keys), expected, source, stage.me)
    ensures old(stage.tree) != map[] ==> stage.tree == old(stage.tree)
  {
    if stage.tree != map[] {
      return false;
    }
    ok := stage.MakeDir([]);
    assert stage.tree == Built({}, Ancestors({}), expected, source, stage.me);
    ghost var files := {};
    for i := 0 to |order|
      invariant FirstExported(order, i, files, expected, source)
      invariant stage.tree == Built(files, Ancestors(files), expected, source, stage.me)
    {
      NextListed(order, i, files, expected, source);
      ok := ExportOne(stage, order[i], expected, source, files);
      if !ok { return; }
      files := files + {order[i]};
    }
    assert order[..|order|] == order && Elements(order) == expected.Keys;
    ok := true;
  }

  /** The first `i` names can be exported together. */
  ghost predicate FirstExported(order: seq<Path>, i: nat, files: set<Path>, expected: map<Path, Mode>, source: Source)
    requires i <= |order|
  {
    && files == Elements(order[..i]) && PrefixFree(files)
    && forall p :: p in files ==> p in expected && Readable(source, p)
  }

  lemma NextListed(order: seq<Path>, i: nat, files: set<Path>, expected: map<Path, Mode>, source: Source)
    requires ListingOf(order, expected.Keys) && i < |order| && FirstExported(order, i, files, expected, source)
    ensures order[i] in expected && order[i] !in files
    ensures Readable(source, order[i]) && PrefixFree(files + {order[i]})
        ==> FirstExported(order, i + 1, files + {order[i]}, expected, source)
    ensures Exportable(expected, source) ==> Readable(source, order[i]) && PrefixFree(files + {order[i]})
  {
    assert order[i] in order && order[..i + 1] == order[..i] + [order[i]];
    assert Elements(order[..i + 1]) == Elements(order[..i]) + {order[i]};
    if PrefixFree(expected.Keys) { FewerNames(files + {order[i]}, expected.Keys); }
  }

  // ----- The round trip -----

  lemma ModeBits(m: Mode)
    ensures EXECUTABLE & SPECIAL_BITS == 0 && EXECUTABLE & SHARED_WRITE == 0
  {
  }

  lemma {:induction false} BuiltEntryAllowed(expected: map<Path, Mode>, source: Source, me: Owner, p: Path)
    requires forall q :: q in expected ==> q in source && expected[q] & SPECIAL_BITS == 0
    requires p == [] || p in expected || p in Ancestors(expected.Keys)
    ensures EntryAllowed(p, if p in expected then NewFile(source[p].data, expected[p], me) else NewDir(me), expected,
                         me)
  {
    ModeBits(0);
  }

  lemma {:induction false} BuiltAllowed(expected: map<Path, Mode>, source: Source, me: Owner)
    requires forall p :: p in expected ==> p in source && expected[p] & SPECIAL_BITS == 0
    ensures AllAllowed(Built(expected.Keys, Ancestors(expected.Keys), expected, source, me), expected, me)
  {
    var t := Built(expected.Keys, Ancestors(expected.Keys), expected, source, me);
    forall p | p in t ensures EntryAllowed(p, t[p], expected, me) {
      BuiltEntryAllowed(expected, source, me, p);
    }
  }

  lemma {:induction false} BuiltIsTree(expected: map<Path, Mode>, source: Source, me: Owner)
    requires Exportable(expected, source)
    ensures IsTree(Built(expected.Keys, Ancestors(expected.Keys), expected, source, me))
  {
    var t := Built(expected.Keys, Ancestors(expected.Keys), expected, source, me);
    forall p | p in t && p != [] ensures p[..|p| - 1] in t && t[p[..|p| - 1]].Dir? {
      ParentBuilt(expected.Keys, p);
    }
  }

  /** Every successful export is accepted by the receiving side of the same kind, with the source bytes. */
  lemma {:induction false} ExportedIsAccepted(expected: map<Path, Mode>, source: Source, me: Owner)
    requires Exportable(expected, source) && forall p :: p in expected ==> expected[p] & SPECIAL_BITS == 0
    ensures
      var t := Built(expected.Keys, Ancestors(expected.Keys), expected, source, me);
      && IsTree(t) && Accepts(t, expected, me)
      && forall p :: p in expected ==> p in t && t[p].File? && t[p].data == source[p].data
  {
    var t := Built(expected.Keys, Ancestors(expected.Keys), expected, source, me);
    BuiltIsTree(expected, source, me);
    BuiltAllowed(expected, source, me);
    assert Files(t) == expected.Keys;
  }

  lemma {:induction false} ParentBuilt(names: set<Path>, p: Path)
    requires PrefixFree(names) && p != [] && (p in names || p in Ancestors(names))
    ensures p[..|p| - 1] == [] || (p[..|p| - 1] in Ancestors(names) && p[..|p| - 1] !in names)
  {
    var b := p[..|p| - 1];
    if b != [] {
      if p in names {
        assert b in Ancestors(names);
      } else {
        var q, k :| q in names && 0 < k < |q| && p == q[..k];
        assert b == q[..k - 1];
      }
    }
  }

  /** The allowlisted modes carry no special bit, and the fixed kinds nest nothing. */
  lemma {:induction false} AllowlistModes(kind: Kind)
    ensures forall p :: p in Allowlist(kind) ==> Allowlist(kind)[p] == EXECUTABLE || Allowlist(kind)[p] == PLAIN
    ensures forall p :: p in Allowlist(kind) ==> Allowlist(kind)[p] & SPECIAL_BITS == 0
  {
  }

  lemma {:induction false} FixedKindsArePrefixFree(kind: Kind)
    requires !kind.Daemon?
    ensures PrefixFree(Allowlist(kind).Keys)
  {
    forall p | p in Allowlist(kind) ensures |p| == 1 {}
    assert forall p :: p in Ancestors(Allowlist(kind).Keys) ==> false;
  }

  /** For every kind: what `export` builds, `check` accepts on the other side. */
  lemma {:induction false} HandoffRoundTrip(kind: Kind, source: Source, me: Owner)
    requires Exportable(Allowlist(kind), source)
    ensures
      var expected := Allowlist(kind);
      var t := Built(expected.Keys, Ancestors(expected.Keys), expected, source, me);
      && IsTree(t) && Accepts(t, expected, me)
      && forall p :: p in expected ==> p in t && t[p].File? && t[p].data == source[p].data
  {
    AllowlistModes(kind);
    ExportedIsAccepted(Allowlist(kind), source, me);
  }
}
