/** Comparing the sibling rebuild with the first build: `read_tarball`, `tar_members`, `compare_bridge`
    (build_files/firewall/snitchwatch-system-handoff.py). Gzip and the tar headers are a function given to the model. */
module Rebuild {
  import opened Options
  import opened Strings
  import opened Orders

  type Sha = Bytes -> string

  const MAX_TARBALL: nat := 64 * 1024 * 1024
  const MAX_TAR: nat := 256 * 1024 * 1024
  const CHUNK: nat := 1024 * 1024

  // ----- read_tarball -----

  /** What lies at the tarball's path; `id` is device and inode. */
  datatype Origin = Absent | Unusual | Regular(data: Bytes, links: nat, id: (nat, nat))

  predicate Readable(o: Origin) { o.Regular? && o.links == 1 && |o.data| <= MAX_TARBALL }

  // ----- tar_members -----

  /** A member header and what its reader yields. */
  datatype Item = Item(name: string, kind: string, mode: nat, size: nat, regular: bool, data: Bytes)

  datatype Member = Member(kind: string, mode: nat, size: nat, sha: string)

  predicate WithinSize(i: Item) { i.regular ==> |i.data| <= i.size }

  function Total(items: seq<Item>): nat {
    if items == [] then 0
    else Total(items[..|items| - 1]) + if items[|items| - 1].regular then items[|items| - 1].size else 0
  }

  function MemberOf(i: Item, sha: Sha): Member { Member(i.kind, i.mode, i.size, sha(if i.regular then i.data else [])) }

  /** Later members of one name replace earlier ones. */
  function Listing(items: seq<Item>, sha: Sha): map<string, Member> {
    if items == [] then map[]
    else Listing(items[..|items| - 1], sha)[items[|items| - 1].name := MemberOf(items[|items| - 1], sha)]
  }

  /** The chunk loop of one regular member: never takes more than one byte beyond the stated size. */
  method ReadChunks(i: Item) returns (whole: bool, taken: nat)
    requires i.regular
    ensures whole <==> WithinSize(i)
    ensures taken <= i.size + 1 && (whole ==> taken == |i.data|)
  {
    taken := 0;
    while taken < |i.data|
      invariant taken <= |i.data| && taken <= i.size
      decreases |i.data| - taken
    {
      var ask := if i.size - taken + 1 < CHUNK then i.size - taken + 1 else CHUNK;
      var chunk := if taken + ask < |i.data| then ask else |i.data| - taken;
      taken := taken + chunk;
      if taken > i.size { return false, taken; }
    }
    return true, taken;
  }

  lemma {:induction false} TotalGrows(items: seq<Item>, n: nat)
    requires n <= |items|
    ensures Total(items[..n]) <= Total(items)
    decreases |items| - n
  {
    if n == |items| {
      assert items[..n] == items;
    } else {
      assert items[..n + 1][..n] == items[..n];
      TotalGrows(items, n + 1);
    }
  }

  /** `tar_members`: listable exactly when no member outgrows its size and together they fit the bound; whatever the
      archive claims, no more than the bound and one byte is taken into memory. */
  method TarMembers(items: seq<Item>, sha: Sha) returns (r: Option<map<string, Member>>, taken: nat)
    ensures r.Some? <==> Total(items) <= MAX_TAR && forall i :: 0 <= i < |items| ==> WithinSize(items[i])
    ensures r.Some? ==> r.value == Listing(items, sha)
    ensures taken <= MAX_TAR + 1
  {
    var members: map<string, Member>, left := map[], MAX_TAR;
    taken := 0;
    for n := 0 to |items|
      invariant members == Listing(items[..n], sha)
      invariant 0 <= left == MAX_TAR - Total(items[..n])
      invariant forall i :: 0 <= i < n ==> WithinSize(items[i])
      invariant taken <= MAX_TAR - left
    {
      assert items[..n + 1][..n] == items[..n];
      TotalGrows(items, n + 1);
      if items[n].regular {
        if items[n].size > left { return None, taken; }
        left := left - items[n].size;
        var whole, more := ReadChunks(items[n]);
        taken := taken + more;
        if !whole { return None, taken; }
      }
      members := members[items[n].name := MemberOf(items[n], sha)];
    }
    assert items[..|items|] == items;
    return Some(members), taken;
  }

  // ----- compare_bridge -----

  datatype Verdict =
    | Refused // a tarball is missing, unusual or too large, or both are one file
    | Identical(sha: string, size: nat)
    | Differs(offset: nat, members: Option<Report>)

  const MAX_LISTED: nat := 20

  /** The names shown, and how many more there are. */
  datatype Report = Report(shown: seq<string>, more: nat)

  /** The first names that differ, in order, up to the limit, and the count of the rest. */
  ghost predicate Reports(r: Report, a: map<string, Member>, b: map<string, Member>) {
    exists names :: Differ(names, a, b) && |names| == |r.shown| + r.more && r.shown == names[..|r.shown|]
                    && (if |names| <= MAX_LISTED then r.more == 0 else |r.shown| == MAX_LISTED)
  }

  /** The sorted list of exactly the names whose entries differ. */
  ghost predicate Differ(names: seq<string>, a: map<string, Member>, b: map<string, Member>) {
    StrictlySorted(StrLt, names) && forall n :: n in names <==> Get(a, n) != Get(b, n)
  }

  /** First offset where the texts differ, or the length of the shorter one. */
  method FirstDifference(a: Bytes, b: Bytes) returns (offset: nat)
    ensures offset <= |a| && offset <= |b| && a[..offset] == b[..offset]
    ensures offset == |a| || offset == |b| || a[offset] != b[offset]
  {
    offset := 0;
    while offset < |a| && offset < |b| && a[offset] == b[offset]
      invariant offset <= |a| && offset <= |b| && a[..offset] == b[..offset]
    {
      assert a[..offset + 1] == a[..offset] + [a[offset]] && b[..offset + 1] == b[..offset] + [b[offset]];
      offset := offset + 1;
    }
  }

  function Get(m: map<string, Member>, name: string): Option<Member> { if name in m then Some(m[name]) else None }

  /** Names whose entries differ, sorted. */
  method Differing(a: map<string, Member>, b: map<string, Member>) returns (names: seq<string>)
    ensures Differ(names, a, b) && (names == [] <==> a == b)
  {
    names := [];
    var todo := a.Keys + b.Keys;
    StrTotal();
    while todo != {}
      invariant todo <= a.Keys + b.Keys && StrictlySorted(StrLt, names)
      invariant forall n :: n in names <==> n !in todo && Get(a, n) != Get(b, n)
      decreases |todo|
    {
      var n :| n in todo;
      todo := todo - {n};
      if Get(a, n) != Get(b, n) {
        InsertSorted(StrLt, n, names);
        names := Insert(StrLt, n, names);
      }
    }
    NoneDiffer(a, b, names);
  }

  lemma NoneDiffer(a: map<string, Member>, b: map<string, Member>, names: seq<string>)
    requires forall n :: n in names <==> Get(a, n) != Get(b, n)
    ensures names == [] <==> a == b
  {
    if names == [] {
      forall n ensures (n in a <==> n in b) && (n in a ==> a[n] == b[n]) { assert n !in names; }
    } else {
      assert names[0] in names;
    }
  }

  type Unpack = Bytes -> Option<seq<Item>>

  method ListMembers(data: Bytes, unpack: Unpack, sha: Sha) returns (r: Option<map<string, Member>>)
    ensures r == MembersOf(data, unpack, sha)
  {
    var items := unpack(data);
    if items.None? { return None; }
    var taken;
    r, taken := TarMembers(items.value, sha);
  }

  ghost function MembersOf(data: Bytes, unpack: Unpack, sha: Sha): Option<map<string, Member>> {
    match unpack(data)
    case None => None
    case Some(items) =>
      if Total(items) <= MAX_TAR && forall i :: 0 <= i < |items| ==> WithinSize(items[i])
      then Some(Listing(items, sha))
      else None
  }

  /** `compare_bridge`: accepted exactly when two different files hold the same bytes; otherwise the report names the
      first differing offset and the first of exactly the differing members, none when only the packaging differs. */
  method CompareBridge(first: Origin, second: Origin, unpack: Unpack, sha: Sha) returns (v: Verdict)
    ensures v.Refused? <==> !Readable(first) || !Readable(second) || first.id == second.id
    ensures v.Identical? <==> Readable(first) && Readable(second) && first.id != second.id && first.data == second.data
    ensures v.Identical? ==> v.sha == sha(second.data) && v.size == |second.data|
    ensures v.Differs? ==>
              && v.offset <= |first.data| && v.offset <= |second.data|
              && first.data[..v.offset] == second.data[..v.offset]
              && (v.offset == |first.data| || v.offset == |second.data|
                  || first.data[v.offset] != second.data[v.offset])
    ensures v.Differs? ==>
              var a, b := MembersOf(first.data, unpack, sha), MembersOf(second.data, unpack, sha);
              && (v.members.None? <==> a.None? || b.None?)
              && (v.members.Some? ==> Reports(v.members.value, a.value, b.value))
              && (v.members.Some? ==> (v.members.value.shown == [] <==> a == b))
  {
    if !Readable(first) || !Readable(second) { return Refused; }
    if first.id == second.id { return Refused; }
    if first.data == second.data { return Identical(sha(first.data), |first.data|); }
    var offset := FirstDifference(first.data, second.data);
    var a := ListMembers(first.data, unpack, sha);
    var b := ListMembers(second.data, unpack, sha);
    if a.None? || b.None? { return Differs(offset, None); }
    var names := Differing(a.value, b.value);
    if |names| <= MAX_LISTED {
      assert names == names[..|names|];
      return Differs(offset, Some(Report(names, 0)));
    }
    return Differs(offset, Some(Report(names[..MAX_LISTED], |names| - MAX_LISTED)));
  }
}
