/** Moving the source pin: `plan_pins`, `plan_policy` and `apply` (ci/repin-snitchwatch.py).

    Files are texts; `json.loads` is `Load`, the one reading of a canonical text. SHA-256 and the
    argument list of a manifest are functions given to the planner. */
module Repin {
  import opened Options
  import opened Strings
  import opened PinText
  import opened PinDoc
  import opened Orders

  /** The files of the tower tree the tool touches. */
  datatype FileName =
    | Pins // build_files/firewall/snitchwatch-system-pins.json
    | Verify // build_files/firewall/snitchwatch-system-verify.py
    | Policy // .github/base-refresh-policy.json
    | Fixture(name: string) // tests/test-snitchwatch-image-build-fixtures/NAME
    | Elsewhere(path: string)

  const MANIFEST := "packaging/flatpak/org.snitchwatch.Snitchwatch.system.yml"

  type Tower = map<FileName, Text>

  // ----- Documents by key -----

  function IndexOf(d: Doc, key: string): (i: nat)
    ensures i <= |d| && (i < |d| ==> d[i].key == key) && forall j :: 0 <= j < i ==> d[j].key != key
  {
    if d == [] || d[0].key == key then 0 else 1 + IndexOf(d[1..], key)
  }

  function At(d: Doc, key: string): Option<Value> {
    if IndexOf(d, key) < |d| then Some(d[IndexOf(d, key)].value) else None
  }

  function Put(d: Doc, key: string, v: Value): Doc {
    if IndexOf(d, key) < |d| then Update(d, IndexOf(d, key), v) else d
  }

  lemma {:induction false} IndexUnique(d: Doc, i: nat)
    requires WellFormed(d) && i < |d|
    ensures IndexOf(d, d[i].key) == i
  {
    var j := IndexOf(d, d[i].key);
    assert j < |d| ==> d[j].key == d[i].key;
  }

  /** Setting one key changes what is read for that key only. */
  lemma {:induction false} PutReads(d: Doc, key: string, v: Value, other: string)
    requires WellFormed(d) && WellSpelled(v) && At(d, key).Some?
    ensures WellFormed(Put(d, key, v))
    ensures At(Put(d, key, v), other) == if other == key then Some(v) else At(d, other)
  {
    var i := IndexOf(d, key);
    var e := Put(d, key, v);
    assert forall j :: 0 <= j < |d| ==> e[j].key == d[j].key;
    assert WellFormed(e);
    if IndexOf(d, other) < |d| {
      IndexUnique(d, IndexOf(d, other));
      IndexUnique(e, IndexOf(d, other));
    } else if IndexOf(e, other) < |e| {
      IndexUnique(d, IndexOf(e, other));
    }
  }

  /** A string value without quotes. */
  predicate PlainString(v: Option<Value>) { v.Some? && v.value.Str? && Spelled(v.value.raw) }

  lemma {:induction false} SetKeyPuts(d: Doc, key: string, v: string)
    requires WellFormed(d) && PlainString(At(d, key)) && Spelled(v)
    ensures SetKey(Print(d), key, v, "  ") == Some(Print(Put(d, key, Str(v))))
    ensures WellFormed(Put(d, key, Str(v)))
  {
    SetKeyUpdates(d, IndexOf(d, key), v);
    PutReads(d, key, Str(v), key);
  }

  // ----- The pins file -----

  /** Pins as the planner needs them: three plain strings, a table of file hashes, an argument list. */
  ghost predicate PinsShape(d: Doc, files: Entries) {
    && WellFormed(d)
    && PlainString(At(d, "sourceCommit")) && PlainString(At(d, "sourceTree")) && PlainString(At(d, "submoduleCommit"))
    && WellSpelledEntries(files) && At(d, "sourceFiles") == Some(Table(TableLines(files)))
    && At(d, "flatpakFinishArgs").Some? && At(d, "flatpakFinishArgs").value.Items?
  }

  datatype Triple = Triple(commit: string, tree: string, sub: string)

  ghost function PinnedTriple(d: Doc): Triple
    requires PlainString(At(d, "sourceCommit")) && PlainString(At(d, "sourceTree"))
    requires PlainString(At(d, "submoduleCommit"))
  {
    Triple(At(d, "sourceCommit").value.raw, At(d, "sourceTree").value.raw, At(d, "submoduleCommit").value.raw)
  }

  /** The lines between the brackets; an empty list leaves one blank line there. */
  function ItemLines(args: seq<string>): seq<string> {
    if args == [] then [""]
    else seq(|args|, i requires 0 <= i < |args| => "    \"" + args[i] + "\"" + if i + 1 == |args| then "" else ",")
  }

  lemma {:induction false} ItemLinesDeep(args: seq<string>)
    requires AllFlat(args)
    ensures AllDeep(ItemLines(args))
  {
    forall l | args != [] && l in ItemLines(args) ensures Deep(l) {
      var i :| 0 <= i < |args| && ItemLines(args)[i] == l;
      assert args[i] in args;
      assert l[..4] == "    ";
    }
  }

  /** The five edits of the pins file. */
  function PinsText(t: Text, to: Triple, files: Entries, args: seq<string>): Option<Text> {
    match SetKey(t, "sourceCommit", to.commit, "  ")
    case None => None
    case Some(a) =>
      match SetKey(a, "sourceTree", to.tree, "  ")
      case None => None
      case Some(b) =>
        match SetKey(b, "submoduleCommit", to.sub, "  ")
        case None => None
        case Some(c) =>
          match SetTable(c, "sourceFiles", Joined(TableLines(files)))
          case None => None
          case Some(e) => SetList(e, "flatpakFinishArgs", Joined(ItemLines(args)))
  }

  function NewPins(d: Doc, to: Triple, files: Entries, args: seq<string>): Doc {
    var e := Put(Put(d, "sourceCommit", Str(to.commit)), "sourceTree", Str(to.tree));
    Put(Put(Put(e, "submoduleCommit", Str(to.sub)), "sourceFiles", Table(TableLines(files))),
        "flatpakFinishArgs", Items(ItemLines(args)))
  }

  predicate SpelledTriple(t: Triple) { Spelled(t.commit) && Spelled(t.tree) && Spelled(t.sub) }

  /** One key was set; every other key reads as before. */
  ghost predicate Changed(d: Doc, e: Doc, key: string, v: Value) {
    WellFormed(e) && At(e, key) == Some(v) && forall other :: other != key ==> At(e, other) == At(d, other)
  }

  lemma {:induction false} PutChanges(d: Doc, key: string, v: Value)
    requires WellFormed(d) && WellSpelled(v) && At(d, key).Some?
    ensures Changed(d, Put(d, key, v), key, v)
  {
    forall other
      ensures WellFormed(Put(d, key, v)) && At(Put(d, key, v), other) == if other == key then Some(v) else At(d, other)
    {
      PutReads(d, key, v, other);
    }
  }

  lemma KeysDiffer()
    ensures "sourceCommit" != "sourceTree" && "sourceCommit" != "submoduleCommit" && "sourceCommit" != "sourceFiles"
    ensures "sourceCommit" != "flatpakFinishArgs" && "sourceTree" != "submoduleCommit" && "sourceTree" != "sourceFiles"
    ensures "sourceTree" != "flatpakFinishArgs" && "submoduleCommit" != "sourceFiles"
    ensures "submoduleCommit" != "flatpakFinishArgs" && "sourceFiles" != "flatpakFinishArgs"
  {
    assert "sourceCommit"[1] != "submoduleCommit"[1];
    assert "sourceTree"[6] != "sourceFiles"[6];
    assert |"sourceCommit"| != |"sourceTree"|;
  }

  /** All these keys are there to be set. */
  ghost predicate Settable(d: Doc, keys: set<string>) { WellFormed(d) && forall k :: k in keys ==> At(d, k).Some? }

  /** Setting one of them leaves all of them to be set. */
  lemma {:induction false} PutAmong(d: Doc, keys: set<string>, key: string, v: Value, e: Doc)
    requires Settable(d, keys) && key in keys && WellSpelled(v) && e == Put(d, key, v)
    ensures Changed(d, e, key, v) && Settable(e, keys)
  {
    PutChanges(d, key, v);
  }

  ghost function PinKeys(): set<string> {
    {"sourceCommit", "sourceTree", "submoduleCommit", "sourceFiles", "flatpakFinishArgs"}
  }

  lemma {:induction false} PinsSteps(d: Doc, was: Entries, to: Triple, files: Entries, args: seq<string>,
                                     d1: Doc, d2: Doc, d3: Doc, d4: Doc, d5: Doc)
    requires PinsShape(d, was) && SpelledTriple(to) && WellSpelledEntries(files) && AllDeep(ItemLines(args))
    requires d1 == Put(d, "sourceCommit", Str(to.commit)) && d2 == Put(d1, "sourceTree", Str(to.tree))
    requires d3 == Put(d2, "submoduleCommit", Str(to.sub)) && d4 == Put(d3, "sourceFiles", Table(TableLines(files)))
    requires d5 == Put(d4, "flatpakFinishArgs", Items(ItemLines(args)))
    ensures Changed(d, d1, "sourceCommit", Str(to.commit)) && Changed(d1, d2, "sourceTree", Str(to.tree))
    ensures Changed(d2, d3, "submoduleCommit", Str(to.sub)) && Changed(d3, d4, "sourceFiles", Table(TableLines(files)))
    ensures Changed(d4, d5, "flatpakFinishArgs", Items(ItemLines(args)))
  {
    var keys := PinKeys();
    TableLinesDeep(files);
    PutAmong(d, keys, "sourceCommit", Str(to.commit), d1);
    PutAmong(d1, keys, "sourceTree", Str(to.tree), d2);
    PutAmong(d2, keys, "submoduleCommit", Str(to.sub), d3);
    PutAmong(d3, keys, "sourceFiles", Table(TableLines(files)), d4);
    PutAmong(d4, keys, "flatpakFinishArgs", Items(ItemLines(args)), d5);
  }

  lemma {:induction false} StringsEdited(d: Doc, was: Entries, to: Triple, d1: Doc, d2: Doc, d3: Doc)
    requires PinsShape(d, was) && SpelledTriple(to)
    requires d1 == Put(d, "sourceCommit", Str(to.commit)) && d2 == Put(d1, "sourceTree", Str(to.tree))
    requires d3 == Put(d2, "submoduleCommit", Str(to.sub))
    requires Changed(d, d1, "sourceCommit", Str(to.commit)) && Changed(d1, d2, "sourceTree", Str(to.tree))
    ensures SetKey(Print(d), "sourceCommit", to.commit, "  ") == Some(Print(d1))
    ensures SetKey(Print(d1), "sourceTree", to.tree, "  ") == Some(Print(d2))
    ensures SetKey(Print(d2), "submoduleCommit", to.sub, "  ") == Some(Print(d3))
  {
    KeysDiffer();
    ThreeStrings(d, "sourceCommit", to.commit, d1, "sourceTree", to.tree, d2, "submoduleCommit", to.sub);
  }

  lemma ThreeStrings(d: Doc, a: string, u: string, d1: Doc, b: string, v: string, d2: Doc, c: string, w: string)
    requires a != b && a != c && b != c && WellFormed(d) && Spelled(u) && Spelled(v) && Spelled(w)
    requires PlainString(At(d, a)) && PlainString(At(d, b)) && PlainString(At(d, c))
    requires d1 == Put(d, a, Str(u)) && d2 == Put(d1, b, Str(v)) && Changed(d, d1, a, Str(u))
    requires Changed(d1, d2, b, Str(v))
    ensures SetKey(Print(d), a, u, "  ") == Some(Print(d1)) && SetKey(Print(d1), b, v, "  ") == Some(Print(d2))
    ensures SetKey(Print(d2), c, w, "  ") == Some(Print(Put(d2, c, Str(w))))
  {
    SetKeyPuts(d, a, u);
    SetKeyPuts(d1, b, v);
    SetKeyPuts(d2, c, w);
  }

  lemma {:induction false} BlocksEdited(d3: Doc, lines: seq<string>, items: seq<string>, d4: Doc, d5: Doc)
    requires WellFormed(d3) && At(d3, "sourceFiles").Some? && At(d3, "sourceFiles").value.Table?
    requires At(d3, "flatpakFinishArgs").Some? && At(d3, "flatpakFinishArgs").value.Items? && lines != [] && items != []
    requires d4 == Put(d3, "sourceFiles", Table(lines)) && d5 == Put(d4, "flatpakFinishArgs", Items(items))
    requires Changed(d3, d4, "sourceFiles", Table(lines))
    ensures SetTable(Print(d3), "sourceFiles", Joined(lines)) == Some(Print(d4))
    ensures SetList(Print(d4), "flatpakFinishArgs", Joined(items)) == Some(Print(d5))
  {
    KeysDiffer();
    SetTableUpdates(d3, IndexOf(d3, "sourceFiles"), lines);
    SetListUpdates(d4, IndexOf(d4, "flatpakFinishArgs"), items);
  }

  lemma {:induction false} FiveChanges(d: Doc, d1: Doc, d2: Doc, d3: Doc, d4: Doc, d5: Doc, k0: string, k1: string,
                                       k2: string, k3: string, k4: string, v0: Value, v1: Value, v2: Value, v3: Value,
                                       v4: Value)
    requires k0 != k1 && k0 != k2 && k0 != k3 && k0 != k4 && k1 != k2 && k1 != k3 && k1 != k4 && k2 != k3 && k2 != k4
    requires k3 != k4
    requires Changed(d, d1, k0, v0) && Changed(d1, d2, k1, v1) && Changed(d2, d3, k2, v2)
    requires Changed(d3, d4, k3, v3) && Changed(d4, d5, k4, v4)
    ensures WellFormed(d5) && WellFormed(d3)
    ensures At(d5, k0) == Some(v0) && At(d5, k1) == Some(v1) && At(d5, k2) == Some(v2) && At(d5, k3) == Some(v3)
    ensures At(d5, k4) == Some(v4)
    ensures At(d3, k3) == At(d, k3) && At(d3, k4) == At(d, k4)
    ensures forall key :: key != k0 && key != k1 && key != k2 && key != k3 && key != k4 ==> At(d5, key) == At(d, key)
  {
  }

  /** The keys the pins edits name. */
  const PIN_KEYS: seq<string> := ["sourceCommit", "sourceTree", "submoduleCommit", "sourceFiles", "flatpakFinishArgs"]

  lemma NotPinKey(key: string)
    requires key !in PIN_KEYS
    ensures key != "sourceCommit" && key != "sourceTree" && key != "submoduleCommit" && key != "sourceFiles"
    ensures key != "flatpakFinishArgs"
  {
    assert PIN_KEYS[0] == "sourceCommit" && PIN_KEYS[1] == "sourceTree" && PIN_KEYS[2] == "submoduleCommit";
    assert PIN_KEYS[3] == "sourceFiles" && PIN_KEYS[4] == "flatpakFinishArgs";
  }

  lemma PinsTextChain(t: Text, a: Text, b: Text, c: Text, e: Text, f: Text, to: Triple, files: Entries,
                      args: seq<string>)
    requires SetKey(t, "sourceCommit", to.commit, "  ") == Some(a)
    requires SetKey(a, "sourceTree", to.tree, "  ") == Some(b)
    requires SetKey(b, "submoduleCommit", to.sub, "  ") == Some(c)
    requires SetTable(c, "sourceFiles", Joined(TableLines(files))) == Some(e)
    requires SetList(e, "flatpakFinishArgs", Joined(ItemLines(args))) == Some(f)
    ensures PinsText(t, to, files, args) == Some(f)
  {
  }

  lemma {:induction false} PinsEdited(d: Doc, was: Entries, to: Triple, files: Entries, args: seq<string>,
                                      d1: Doc, d2: Doc, d3: Doc, d4: Doc, d5: Doc)
    requires PinsShape(d, was) && SpelledTriple(to) && WellSpelledEntries(files) && AllDeep(ItemLines(args))
    requires d1 == Put(d, "sourceCommit", Str(to.commit)) && d2 == Put(d1, "sourceTree", Str(to.tree))
    requires d3 == Put(d2, "submoduleCommit", Str(to.sub)) && d4 == Put(d3, "sourceFiles", Table(TableLines(files)))
    requires d5 == Put(d4, "flatpakFinishArgs", Items(ItemLines(args)))
    requires Changed(d, d1, "sourceCommit", Str(to.commit)) && Changed(d1, d2, "sourceTree", Str(to.tree))
    requires Changed(d3, d4, "sourceFiles", Table(TableLines(files)))
    requires WellFormed(d3) && At(d3, "sourceFiles") == At(d, "sourceFiles")
    requires At(d3, "flatpakFinishArgs") == At(d, "flatpakFinishArgs")
    ensures PinsText(Print(d), to, files, args) == Some(Print(d5))
  {
    StringsEdited(d, was, to, d1, d2, d3);
    assert |TableLines(files)| == |files|;
    BlocksEdited(d3, TableLines(files), ItemLines(args), d4, d5);
    PinsTextChain(Print(d), Print(d1), Print(d2), Print(d3), Print(d4), Print(d5), to, files, args);
  }

  lemma {:induction false} NewPinsShape(e: Doc, to: Triple, files: Entries, args: seq<string>)
    requires WellFormed(e) && SpelledTriple(to) && WellSpelledEntries(files)
    requires At(e, "sourceCommit") == Some(Str(to.commit)) && At(e, "sourceTree") == Some(Str(to.tree))
    requires At(e, "submoduleCommit") == Some(Str(to.sub)) && At(e, "sourceFiles") == Some(Table(TableLines(files)))
    requires At(e, "flatpakFinishArgs") == Some(Items(ItemLines(args)))
    ensures PinsShape(e, files) && PinnedTriple(e) == to
  {
  }

  lemma {:induction false} NewPinsReads(d: Doc, was: Entries, to: Triple, files: Entries, args: seq<string>,
                                        d1: Doc, d2: Doc, d3: Doc, d4: Doc, d5: Doc)
    requires PinsShape(d, was) && SpelledTriple(to) && WellSpelledEntries(files) && AllDeep(ItemLines(args))
    requires d1 == Put(d, "sourceCommit", Str(to.commit)) && d2 == Put(d1, "sourceTree", Str(to.tree))
    requires d3 == Put(d2, "submoduleCommit", Str(to.sub)) && d4 == Put(d3, "sourceFiles", Table(TableLines(files)))
    requires d5 == Put(d4, "flatpakFinishArgs", Items(ItemLines(args)))
    ensures PinsText(Print(d), to, files, args) == Some(Print(d5))
    ensures PinsShape(d5, files) && PinnedTriple(d5) == to
    ensures At(d5, "flatpakFinishArgs") == Some(Items(ItemLines(args)))
    ensures forall key :: key !in PIN_KEYS ==> At(d5, key) == At(d, key)
  {
    PinsSteps(d, was, to, files, args, d1, d2, d3, d4, d5);
    KeysDiffer();
    FiveChanges(d, d1, d2, d3, d4, d5, "sourceCommit", "sourceTree", "submoduleCommit", "sourceFiles",
                "flatpakFinishArgs", Str(to.commit), Str(to.tree), Str(to.sub), Table(TableLines(files)),
                Items(ItemLines(args)));
    PinsEdited(d, was, to, files, args, d1, d2, d3, d4, d5);
    NewPinsShape(d5, to, files, args);
    forall key | key !in PIN_KEYS ensures At(d5, key) == At(d, key) { NotPinKey(key); }
  }

  /** The pins edits change the five named keys when the file is read again, and nothing else. */
  lemma {:induction false} PinsTextMeaning(d: Doc, was: Entries, to: Triple, files: Entries, args: seq<string>)
    requires PinsShape(d, was) && SpelledTriple(to) && WellSpelledEntries(files) && AllFlat(args)
    ensures PinsText(Print(d), to, files, args) == Some(Print(NewPins(d, to, files, args)))
    ensures PinsShape(NewPins(d, to, files, args), files) && PinnedTriple(NewPins(d, to, files, args)) == to
    ensures At(NewPins(d, to, files, args), "flatpakFinishArgs") == Some(Items(ItemLines(args)))
    ensures forall key :: key !in PIN_KEYS ==> At(NewPins(d, to, files, args), key) == At(d, key)
  {
    var d1 := Put(d, "sourceCommit", Str(to.commit));
    var d2 := Put(d1, "sourceTree", Str(to.tree));
    var d3 := Put(d2, "submoduleCommit", Str(to.sub));
    var d4 := Put(d3, "sourceFiles", Table(TableLines(files)));
    var d5 := Put(d4, "flatpakFinishArgs", Items(ItemLines(args)));
    ItemLinesDeep(args);
    NewPinsReads(d, was, to, files, args, d1, d2, d3, d4, d5);
  }
}
