/** Adding a checked overlay to a tree: `merge`
    (build_files/firewall/snitchwatch-system-handoff.py). */
module Merge {
  import opened Handoff

  /** The overlay: a tree of directories and files, as `check` leaves it. */
  ghost predicate LinkFree(t: Tree) { IsTree(t) && t[[]].Dir? && forall p :: p in t ==> !t[p].Other? }

  /** The overlay's directories in a top-down walk order. */
  ghost predicate TopDown(bases: seq<Path>, source: Tree) {
    && (forall p :: p in bases <==> p in source && source[p].Dir?)
    && (forall i, j :: 0 <= i < j < |bases| ==> bases[i] != bases[j])
    && forall i :: 0 <= i < |bases| && bases[i] != [] ==> Parent(bases[i]) in bases[..i]
  }

  function Parent(p: Path): Path { if p == [] then [] else p[..|p| - 1] }

  /** A path the overlay may not add: a file that exists already, or a directory that exists as something else. */
  predicate Overlaps(source: Tree, dest: Tree, p: Path)
    requires p in source
  {
    p in dest && (source[p].File? || !dest[p].Dir?)
  }

  ghost predicate Disjoint(source: Tree, dest: Tree) {
    [] in dest && dest[[]].Dir? && forall p :: p in source ==> !Overlaps(source, dest, p)
  }

  /** What the overlay leaves at a path that was free. */
  function Copied(node: Node, me: Owner): Node {
    match node
    case File(m, data, _) => NewFile(data, m.mode, me)
    case _ => NewDir(me)
  }

  /** The destination with the overlay's paths in `added`. */
  function Merged(source: Tree, dest: Tree, added: set<Path>, me: Owner): Tree
    requires added <= source.Keys
  {
    map p | p in dest.Keys + added :: if p in dest then dest[p] else Copied(source[p], me)
  }

  lemma {:induction false} MergedOne(source: Tree, dest: Tree, added: set<Path>, p: Path, me: Owner)
    requires added <= source.Keys && p in source
    ensures Merged(source, dest, added + {p}, me)
         == if p in dest then Merged(source, dest, added, me)
            else Merged(source, dest, added, me)[p := Copied(source[p], me)]
  {
  }

  method FilesOf(source: Tree, base: Path) returns (files: seq<Path>)
    ensures forall p :: p in files <==> p in source && p != [] && Parent(p) == base && source[p].File?
    ensures forall i, j :: 0 <= i < j < |files| ==> files[i] != files[j]
  {
    files := [];
    var todo := source.Keys;
    while todo != {}
      invariant todo <= source.Keys
      invariant forall p :: p in files <==> p in source && p !in todo && p != [] && Parent(p) == base && source[p].File?
      invariant forall i, j :: 0 <= i < j < |files| ==> files[i] != files[j]
      decreases |todo|
    {
      var p :| p in todo;
      todo := todo - {p};
      if p != [] && Parent(p) == base && source[p].File? {
        files := files + [p];
      }
    }
  }

  /** The files of one directory, in any order; stops at the first that exists in the destination. */
  method MergeFiles(stage: Stage, source: Tree, files: seq<Path>, ghost dest: Tree, ghost added: set<Path>)
    returns (ok: bool, ghost now: set<Path>)
    requires added <= source.Keys && stage.tree == Merged(source, dest, added, stage.me)
    requires forall p :: p in files ==> p in source && source[p].File? && p !in added
    requires forall i, j :: 0 <= i < j < |files| ==> files[i] != files[j]
    modifies stage
    ensures now <= source.Keys && stage.tree == Merged(source, dest, now, stage.me)
    ensures ok <==> forall p :: p in files ==> p !in dest
    ensures ok ==> now == added + Elements(files)
  {
    now := added;
    for i := 0 to |files|
      invariant now == added + Elements(files[..i])
      invariant now <= source.Keys && stage.tree == Merged(source, dest, now, stage.me)
      invariant forall p :: p in files[..i] ==> p !in dest
    {
      var p := files[i];
      assert p in files && p !in files[..i] && files[..i + 1] == files[..i] + [p];
      MergedOne(source, dest, now, p, stage.me);
      ok := stage.Create(p, source[p].data, source[p].meta.mode);
      if !ok {
        return;
      }
      now := now + {p};
    }
    assert files[..|files|] == files;
    ok := true;
  }

  /** Everything the walk adds up to and including the given directories. */
  function Reached(source: Tree, bases: set<Path>): set<Path> {
    set p | p in source && (p in bases || (source[p].File? && p != [] && Parent(p) in bases))
  }

  ghost predicate DirsOf(source: Tree, done: set<Path>) { forall b :: b in done ==> b in source && source[b].Dir? }

  lemma {:induction false} BaseStillFree(source: Tree, done: set<Path>, base: Path)
    requires DirsOf(source, done) && base in source && source[base].Dir? && base !in done
    ensures base !in Reached(source, done)
    ensures forall p :: p in source && source[p].File? && p != [] && Parent(p) == base ==> p !in Reached(source, done)
  {
  }

  /** Neither the directory nor one of its files is in the way. */
  ghost predicate BaseClear(source: Tree, dest: Tree, base: Path) {
    forall p :: p in source && (p == base || (source[p].File? && p != [] && Parent(p) == base))
        ==> !Overlaps(source, dest, p)
  }

  ghost predicate Clear(source: Tree, dest: Tree, done: set<Path>) {
    forall b :: b in done ==> BaseClear(source, dest, b)
  }

  lemma {:induction false} ClearAll(source: Tree, dest: Tree, bases: seq<Path>)
    requires LinkFree(source) && TopDown(bases, source) && [] in dest && dest[[]].Dir?
    ensures Clear(source, dest, Elements(bases)) <==> Disjoint(source, dest)
  {
    if Clear(source, dest, Elements(bases)) {
      forall p | p in source ensures !Overlaps(source, dest, p) {
        var b := if source[p].File? then Parent(p) else p;
        assert b in bases && BaseClear(source, dest, b);
      }
    }
  }

  /** One directory of the walk. */
  method MergeBase(stage: Stage, source: Tree, base: Path, ghost dest: Tree, ghost done: set<Path>)
    returns (ok: bool, ghost now: set<Path>)
    requires DirsOf(source, done) && base in source && source[base].Dir? && base !in done
    requires stage.tree == Merged(source, dest, Reached(source, done), stage.me)
    modifies stage
    ensures now <= source.Keys && stage.tree == Merged(source, dest, now, stage.me)
    ensures ok <==> BaseClear(source, dest, base)
    ensures ok ==> now == Reached(source, done + {base})
  {
    now := Reached(source, done);
    BaseStillFree(source, done, base);
    if base in stage.tree && !stage.tree[base].Dir? {
      assert Overlaps(source, dest, base);
      return false, now;
    }
    MergedOne(source, dest, now, base, stage.me);
    if base !in stage.tree {
      var _ := stage.MakeDir(base);
    }
    now := now + {base};
    var files := FilesOf(source, base);
    ok, now := MergeFiles(stage, source, files, dest, now);
    if ok {
      assert now == Reached(source, done + {base});
    } else {
      ghost var p :| p in files && p in dest;
      assert Overlaps(source, dest, p);
    }
  }

  lemma NextBase(bases: seq<Path>, i: nat, done: set<Path>)
    requires i < |bases| && done == Elements(bases[..i]) && forall i, j :: 0 <= i < j < |bases| ==> bases[i] != bases[j]
    ensures bases[i] in Elements(bases) && bases[i] !in done && done <= Elements(bases)
    ensures Elements(bases[..i + 1]) == done + {bases[i]}
  {
    assert bases[..i + 1] == bases[..i] + [bases[i]];
  }

  lemma ClearMore(source: Tree, dest: Tree, done: set<Path>, base: Path, all: set<Path>)
    requires base in all
    ensures Clear(source, dest, done) && BaseClear(source, dest, base) ==> Clear(source, dest, done + {base})
    ensures !BaseClear(source, dest, base) ==> !Clear(source, dest, all)
  {
  }

  /** The loop over the walk. */
  method MergeBases(stage: Stage, source: Tree, bases: seq<Path>) returns (ok: bool, ghost added: set<Path>)
    requires DirsOf(source, Elements(bases)) && forall i, j :: 0 <= i < j < |bases| ==> bases[i] != bases[j]
    modifies stage
    ensures added <= source.Keys && stage.tree == Merged(source, old(stage.tree), added, stage.me)
    ensures ok <==> Clear(source, old(stage.tree), Elements(bases))
    ensures ok ==> added == Reached(source, Elements(bases))
  {
    ghost var dest := stage.tree;
    added := {};
    assert stage.tree == Merged(source, dest, {}, stage.me);
    ghost var done: set<Path> := {};
    for i := 0 to |bases|
      invariant done == Elements(bases[..i])
      invariant added == Reached(source, done)
      invariant stage.tree == Merged(source, dest, added, stage.me)
      invariant Clear(source, dest, done)
    {
      var base := bases[i];
      NextBase(bases, i, done);
      ok, added := MergeBase(stage, source, base, dest, done);
      ClearMore(source, dest, done, base, Elements(bases));
      if !ok {
        return;
      }
      done := done + {base};
    }
    assert bases[..|bases|] == bases;
    ok := true;
  }

  /** `merge`. */
  method MergeOverlay(stage: Stage, source: Tree, bases: seq<Path>) returns (ok: bool, ghost added: set<Path>)
    requires LinkFree(source) && TopDown(bases, source)
    modifies stage
    ensures ok <==> Disjoint(source, old(stage.tree))
    // In every outcome no entry that existed has changed, and only paths of the overlay were added.
    ensures added <= source.Keys && stage.tree == Merged(source, old(stage.tree), added, stage.me)
    ensures ok ==> added == source.Keys
  {
    ghost var dest := stage.tree;
    if [] !in stage.tree || !stage.tree[[]].Dir? {
      assert stage.tree == Merged(source, dest, {}, stage.me);
      return false, {};
    }
    ok, added := MergeBases(stage, source, bases);
    ClearAll(source, dest, bases);
    AllReached(source, bases);
  }

  lemma {:induction false} AllReached(source: Tree, bases: seq<Path>)
    requires LinkFree(source) && TopDown(bases, source)
    ensures Reached(source, Elements(bases)) == source.Keys
  {
    forall p | p in source ensures p in Reached(source, Elements(bases)) {
      if source[p].File? { assert p != [] && Parent(p) in bases; } else { assert p in bases; }
    }
  }

  // ----- What the result is -----

  /** A successful merge is a disjoint union: old entries as they were, every overlay file with its bytes and mode,
      every overlay directory a directory, and nothing else. */
  lemma {:induction false} MergeIsUnion(source: Tree, dest: Tree, me: Owner)
    requires LinkFree(source) && Disjoint(source, dest)
    ensures
      var t := Merged(source, dest, source.Keys, me);
      && t.Keys == dest.Keys + source.Keys
      && (forall p :: p in dest ==> t[p] == dest[p])
      && (forall p :: p in source && source[p].File? ==>
            p !in dest && t[p] == File(Meta(source[p].meta.mode, me, Names({})), source[p].data, 1))
      && (forall p :: p in source && source[p].Dir? ==> t[p].Dir? && (p !in dest ==> t[p].meta.mode == EXECUTABLE))
  {
    forall p | p in source
      ensures source[p].File? ==> p !in dest
      ensures source[p].Dir? && p in dest ==> dest[p].Dir?
    {
      assert !Overlaps(source, dest, p);
    }
  }

  /** The result is again a tree. */
  lemma {:induction false} MergeIsTree(source: Tree, dest: Tree, me: Owner)
    requires LinkFree(source) && IsTree(dest) && Disjoint(source, dest)
    ensures IsTree(Merged(source, dest, source.Keys, me))
  {
    var t := Merged(source, dest, source.Keys, me);
    forall p | p in t && p != [] ensures p[..|p| - 1] in t && t[p[..|p| - 1]].Dir? {
      var b := p[..|p| - 1];
      if p !in dest {
        assert b in source && source[b].Dir?;
        assert !Overlaps(source, dest, b);
      }
    }
  }

  /** Merging a second time refuses, as soon as the overlay holds a file. */
  lemma {:induction false} MergeTwiceRefused(source: Tree, dest: Tree, me: Owner, p: Path)
    requires LinkFree(source) && Disjoint(source, dest) && p in source && source[p].File?
    ensures !Disjoint(source, Merged(source, dest, source.Keys, me))
  {
    assert Overlaps(source, Merged(source, dest, source.Keys, me), p);
  }
}
