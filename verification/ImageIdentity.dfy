/** The identity of an OCI archive: what `image_identity` accepts, and that the manifest digest fixes the content
    (ci/r13-publication.py). SHA-256 and the JSON decoder are functions given to the check. */
module ImageIdentity {
  import opened Options
  import opened Strings
  import opened Json

  type Digest = string

  datatype Member = File(bytes: Bytes) | Dir | Special

  datatype TarEntry = TarEntry(name: string, member: Member)

  type Members = map<string, Member>

  function Size(m: Member): nat { if m.File? then |m.bytes| else 0 }

  // ----- JSON with unique keys -----

  ghost predicate UniqueKeys(items: seq<(string, Json)>) {
    forall i, j :: 0 <= i < j < |items| ==> items[i].0 != items[j].0
  }

  ghost predicate HasKey(items: seq<(string, Json)>, k: string) { exists i :: 0 <= i < |items| && items[i].0 == k }

  /** `pairs`: an object is read only if no field repeats, and then holds exactly its fields. */
  method Pairs(items: seq<(string, Json)>) returns (r: Option<Fields>)
    ensures r.Some? <==> UniqueKeys(items)
    ensures r.Some? ==> (forall k :: k in r.value <==> HasKey(items, k))
                        && forall i :: 0 <= i < |items| ==> r.value[items[i].0] == items[i].1
  {
    var result: Fields := map[];
    for n := 0 to |items|
      invariant UniqueKeys(items[..n])
      invariant forall k :: k in result <==> HasKey(items[..n], k)
      invariant forall i :: 0 <= i < n ==> result[items[i].0] == items[i].1
    {
      var (key, value) := items[n];
      if key in result {
        KeyRepeats(items, n);
        return None;
      }
      UniqueMore(items, n);
      HasKeyMore(items, n);
      result := result[key := value];
    }
    assert items[..|items|] == items;
    return Some(result);
  }

  lemma KeyRepeats(items: seq<(string, Json)>, n: nat)
    requires n < |items| && HasKey(items[..n], items[n].0)
    ensures !UniqueKeys(items)
  {
    var i :| 0 <= i < n && items[..n][i].0 == items[n].0;
    assert items[i].0 == items[n].0;
  }

  lemma UniqueMore(items: seq<(string, Json)>, n: nat)
    requires n < |items| && UniqueKeys(items[..n]) && !HasKey(items[..n], items[n].0)
    ensures UniqueKeys(items[..n + 1])
  {
    forall i | 0 <= i < n ensures items[i].0 != items[n].0 { assert items[..n][i] == items[i]; }
    forall i, j | 0 <= i < j < n ensures items[i].0 != items[j].0 {
      assert items[..n][i] == items[i] && items[..n][j] == items[j];
    }
  }

  lemma {:induction false} HasKeyMore(items: seq<(string, Json)>, n: nat)
    requires n < |items|
    ensures forall k :: HasKey(items[..n + 1], k) <==> HasKey(items[..n], k) || k == items[n].0
  {
    forall k ensures HasKey(items[..n + 1], k) <==> HasKey(items[..n], k) || k == items[n].0 {
      if HasKey(items[..n], k) {
        var i :| 0 <= i < n && items[..n][i].0 == k;
        assert items[..n + 1][i].0 == k;
      }
      if k == items[n].0 { assert items[..n + 1][n].0 == k; }
      if HasKey(items[..n + 1], k) && k != items[n].0 {
        var i :| 0 <= i < n + 1 && items[..n + 1][i].0 == k;
        assert items[..n][i].0 == k;
      }
    }
  }

  type Sha = Bytes -> string
  type Decode = Bytes -> Option<Json>

  /** Two texts with one hash. */
  predicate Clash(x: Bytes, y: Bytes, sha: Sha) { x != y && sha(x) == sha(y) }

  const LIMIT := 16 * 1024 * 1024

  /** `hashed_json`: the bytes hash to their name and are the one canonical spelling of what they say. */
  function HashedJson(data: Bytes, value: string, sha: Sha, decode: Decode, canonical: Json -> Bytes): Option<Json> {
    if |data| > LIMIT || sha(data) != value || decode(data).None? || data != canonical(decode(data).value) then None
    else decode(data)
  }

  /** One name gives one value, unless the two texts read are themselves two texts with one hash; one value has one
      spelling and one name. */
  lemma HashNamesOneValue(a: Bytes, b: Bytes, v: string, w: string, sha: Sha, decode: Decode, canonical: Json -> Bytes)
    requires HashedJson(a, v, sha, decode, canonical).Some? && HashedJson(b, w, sha, decode, canonical).Some?
    ensures v == w
        ==> HashedJson(a, v, sha, decode, canonical) == HashedJson(b, w, sha, decode, canonical) || Clash(a, b, sha)
    ensures HashedJson(a, v, sha, decode, canonical) == HashedJson(b, w, sha, decode, canonical) ==> a == b && v == w
  {
  }

  // ----- Names and digests -----

  predicate IsHex(c: char) { '0' <= c <= '9' || 'a' <= c <= 'f' }

  predicate HexValue(s: string) { |s| == 64 && forall i :: 0 <= i < 64 ==> IsHex(s[i]) }

  const SHA := "sha256:"
  const BLOBS := "blobs/sha256/"

  /** `digest` */
  predicate IsDigest(d: string) { SHA <= d && HexValue(d[|SHA|..]) }

  function BlobName(d: Digest): string
    requires IsDigest(d)
  {
    BLOBS + d[|SHA|..]
  }

  function RemovePrefix(name: string): string { if "./" <= name then name[2..] else name }

  predicate IsRoot(name: string) { name == "" || name == "." }

  /** The two dots as a component of the path, from position `i` on. */
  predicate DotDotAt(name: string, i: nat) {
    && i + 2 <= |name| && name[i] == '.' && name[i + 1] == '.'
    && (i == 0 || name[i - 1] == '/') && (i + 2 == |name| || name[i + 2] == '/')
  }

  predicate SafeName(name: string) {
    (name != "" ==> name[0] != '/') && forall i | 0 <= i < |name| :: !DotDotAt(name, i)
  }

  predicate Expected(name: string) {
    name in {"index.json", "oci-layout", "blobs", "blobs/sha256"} || (BLOBS <= name && HexValue(name[|BLOBS|..]))
  }

  const MOST := 10000

  // ----- The members of the archive -----

  function Kept(archive: seq<TarEntry>): nat {
    if archive == [] then 0
    else Kept(archive[..|archive| - 1]) + if IsRoot(RemovePrefix(archive[|archive| - 1].name)) then 0 else 1
  }

  predicate EntryOk(e: TarEntry) {
    var name := RemovePrefix(e.name);
    if IsRoot(name) then e.member.Dir? else SafeName(name) && !e.member.Special? && Expected(name)
  }

  /** The entry is the member of that name. */
  predicate Names(e: TarEntry, name: string) { RemovePrefix(e.name) == name && !IsRoot(name) }

  ghost predicate Packed(archive: seq<TarEntry>) {
    && (forall i :: 0 <= i < |archive| ==> EntryOk(archive[i]))
    && (forall i, j :: 0 <= i < j < |archive| && !IsRoot(RemovePrefix(archive[i].name)) ==>
          RemovePrefix(archive[i].name) != RemovePrefix(archive[j].name))
    && Kept(archive) <= MOST
  }

  /** The members are the entries, by name. */
  ghost predicate Lists(archive: seq<TarEntry>, members: Members) {
    && (forall i :: 0 <= i < |archive| && !IsRoot(RemovePrefix(archive[i].name)) ==>
          RemovePrefix(archive[i].name) in members && members[RemovePrefix(archive[i].name)] == archive[i].member)
    && (forall name :: name in members ==> exists i :: 0 <= i < |archive| && Names(archive[i], name))
  }

  lemma {:induction false} KeptGrows(archive: seq<TarEntry>, n: nat)
    requires n <= |archive|
    ensures Kept(archive[..n]) <= Kept(archive)
    decreases |archive| - n
  {
    if n < |archive| {
      assert archive[..n + 1] == archive[..n] + [archive[n]];
      KeptGrows(archive, n + 1);
    } else {
      assert archive[..n] == archive;
    }
  }

  lemma {:induction false} PackedMore(s: seq<TarEntry>, e: TarEntry, members: Members)
    requires Packed(s) && Lists(s, members) && EntryOk(e) && Kept(s + [e]) <= MOST
    requires IsRoot(RemovePrefix(e.name)) || RemovePrefix(e.name) !in members
    ensures Packed(s + [e])
  {
    var t := s + [e];
    forall i, j | 0 <= i < j < |t| && !IsRoot(RemovePrefix(t[i].name))
      ensures RemovePrefix(t[i].name) != RemovePrefix(t[j].name) {
      assert t[i] == s[i];
      if j == |s| { assert RemovePrefix(s[i].name) in members; }
    }
  }

  function WithMember(members: Members, e: TarEntry): Members {
    if IsRoot(RemovePrefix(e.name)) then members else members[RemovePrefix(e.name) := e.member]
  }

  lemma {:induction false} ListsMore(s: seq<TarEntry>, e: TarEntry, members: Members)
    requires Lists(s, members) && (IsRoot(RemovePrefix(e.name)) || RemovePrefix(e.name) !in members)
    ensures Lists(s + [e], WithMember(members, e))
  {
    var t := s + [e];
    forall m | m in WithMember(members, e) ensures exists i :: 0 <= i < |t| && Names(t[i], m) {
      if m in members {
        var i :| 0 <= i < |s| && Names(s[i], m);
        assert Names(t[i], m);
      } else {
        assert Names(t[|s|], m);
      }
    }
  }

  ghost predicate Admits(members: Members, e: TarEntry) {
    EntryOk(e) && (IsRoot(RemovePrefix(e.name)) || (RemovePrefix(e.name) !in members && |members| < MOST))
  }

  /** One header. */
  method ReadMember(members: Members, e: TarEntry) returns (r: Option<Members>)
    ensures r == if Admits(members, e) then Some(WithMember(members, e)) else None
  {
    var name := RemovePrefix(e.name);
    if IsRoot(name) {
      if !e.member.Dir? { return None; }
      return Some(members);
    }
    if name in members || !SafeName(name) { return None; }
    if e.member.Special? { return None; }
    if !Expected(name) { return None; }
    var more := members[name := e.member];
    if |more| > MOST { return None; }
    return Some(more);
  }

  ghost predicate ReadSoFar(archive: seq<TarEntry>, members: Members) {
    Packed(archive) && Lists(archive, members) && |members| == Kept(archive)
  }

  lemma {:induction false} ReadStep(archive: seq<TarEntry>, n: nat, members: Members)
    requires n < |archive| && ReadSoFar(archive[..n], members) && Admits(members, archive[n])
    ensures ReadSoFar(archive[..n + 1], WithMember(members, archive[n]))
  {
    var s, e := archive[..n], archive[n];
    assert archive[..n + 1] == s + [e];
    KeptMore(s, e);
    PackedMore(s, e, members);
    ListsMore(s, e, members);
    if !IsRoot(RemovePrefix(e.name)) {
      assert |members[RemovePrefix(e.name) := e.member]| == |members| + 1;
    }
  }

  /** The loop over the archive headers. */
  method ReadMembers(archive: seq<TarEntry>) returns (r: Option<Members>)
    ensures r.Some? <==> Packed(archive)
    ensures r.Some? ==> Lists(archive, r.value)
  {
    var members: Members := map[];
    assert ReadSoFar(archive[..0], members);
    for n := 0 to |archive|
      invariant ReadSoFar(archive[..n], members)
    {
      var next := ReadMember(members, archive[n]);
      if next.None? {
        Refused(archive, n, members);
        return None;
      }
      ReadStep(archive, n, members);
      members := next.value;
    }
    assert archive[..|archive|] == archive;
    return Some(members);
  }

  lemma KeptMore(s: seq<TarEntry>, e: TarEntry)
    ensures Kept(s + [e]) == Kept(s) + if IsRoot(RemovePrefix(e.name)) then 0 else 1
  {
    assert (s + [e])[..|s|] == s;
  }

  lemma {:induction false} RefusedEntry(archive: seq<TarEntry>, n: nat)
    requires n < |archive| && !EntryOk(archive[n])
    ensures !Packed(archive)
  {
  }

  lemma {:induction false} RefusedName(archive: seq<TarEntry>, n: nat, members: Members)
    requires n < |archive| && Lists(archive[..n], members) && RemovePrefix(archive[n].name) in members
    ensures !Packed(archive)
  {
    var name := RemovePrefix(archive[n].name);
    var i :| 0 <= i < |archive[..n]| && Names(archive[..n][i], name);
    assert archive[..n][i] == archive[i];
    assert !IsRoot(RemovePrefix(archive[i].name)) && RemovePrefix(archive[i].name) == RemovePrefix(archive[n].name);
  }

  lemma {:induction false} RefusedCount(archive: seq<TarEntry>, n: nat)
    requires n < |archive| && !IsRoot(RemovePrefix(archive[n].name)) && Kept(archive[..n]) >= MOST
    ensures Kept(archive) > MOST
  {
    assert archive[..n + 1] == archive[..n] + [archive[n]];
    KeptMore(archive[..n], archive[n]);
    KeptGrows(archive, n + 1);
  }

  lemma {:induction false} Refused(archive: seq<TarEntry>, n: nat, members: Members)
    requires n < |archive| && Lists(archive[..n], members) && |members| == Kept(archive[..n])
    requires !Admits(members, archive[n])
    ensures !Packed(archive)
  {
    if !EntryOk(archive[n]) {
      RefusedEntry(archive, n);
    } else if RemovePrefix(archive[n].name) in members {
      RefusedName(archive, n, members);
    } else {
      RefusedCount(archive, n);
    }
  }

  // ----- The blobs -----

  /** `value[key]` of an object; anything else raises. */
  function Field(v: Json, key: string): Option<Json> { if v.Obj? && key in v.fields then Some(v.fields[key]) else None }

  /** Python equality of a JSON value with a number. */
  predicate Equals(v: Json, n: nat) {
    match v
    case Int(i) => i == n
    case Float(r) => r == n as real
    case Bool(b) => n == if b then 1 else 0
    case _ => false
  }

  /** `blob` without an expected digest; the decoder refuses oversized texts itself. */
  function Blob(members: Members, name: string, decode: Decode): Option<Json> {
    if name in members && members[name].File? && |members[name].bytes| <= LIMIT then decode(members[name].bytes)
    else None
  }

  /** A regular blob whose bytes hash to the digest in its name. */
  predicate Matches(members: Members, d: Digest, sha: Sha) {
    IsDigest(d) && BlobName(d) in members && members[BlobName(d)].File? && SHA + sha(members[BlobName(d)].bytes) == d
  }

  /** The digest a descriptor names. */
  function Named(item: Json): Option<Digest> {
    match Field(item, "digest")
    case Some(Str(d)) => if IsDigest(d) then Some(d) else None
    case _ => None
  }

  /** A descriptor is served: its blob is there with the stated size and digest. */
  predicate Served(members: Members, item: Json, sha: Sha) {
    && Named(item).Some? && Matches(members, Named(item).value, sha)
    && Field(item, "size").Some? && Equals(Field(item, "size").value, |members[BlobName(Named(item).value)].bytes|)
  }

  predicate AllServed(members: Members, items: seq<Json>, sha: Sha) {
    forall i :: 0 <= i < |items| ==> Served(members, items[i], sha)
  }

  /** The descriptors of a manifest: its config and then its layers. */
  function Descriptors(manifest: Json): (r: Option<seq<Json>>)
    ensures r.Some? ==> r.value != []
  {
    match (Field(manifest, "config"), Field(manifest, "layers"))
    case (Some(config), Some(List(layers))) => Some([config] + layers)
    case _ => None
  }

  const MEDIA_TYPES: set<Json> := {Str("application/vnd.oci.image.manifest.v1+json"),
                                   Str("application/vnd.docker.distribution.manifest.v2+json")}

  predicate LayoutOk(v: Json) { v == Obj(map["imageLayoutVersion" := Str("1.0.0")]) }

  /** The one image of the index. */
  function Selected(index: Json): Option<Json> {
    if index.Obj? && Equals(Get(index.fields, "schemaVersion"), 2) && |Items(Get(index.fields, "manifests"))| == 1
    then Some(Items(Get(index.fields, "manifests"))[0]) else None
  }

  predicate PlatformOk(config: Json) {
    config.Obj? && Get(config.fields, "architecture") == Str("amd64") && Get(config.fields, "os") == Str("linux")
  }

  /** The manifest is a single-platform manifest whose config and layers are all served. */
  ghost predicate ManifestOk(members: Members, manifest: Json, sha: Sha, decode: Decode) {
    && manifest.Obj? && Get(manifest.fields, "mediaType") in MEDIA_TYPES
    && Descriptors(manifest).Some?
    && AllServed(members, Descriptors(manifest).value, sha)
    && Blob(members, BlobName(Named(Descriptors(manifest).value[0]).value), decode).Some?
    && PlatformOk(Blob(members, BlobName(Named(Descriptors(manifest).value[0]).value), decode).value)
  }

  /** The archive's members carry the image with manifest digest `d`. */
  ghost predicate Carries(members: Members, d: Digest, sha: Sha, decode: Decode) {
    && Blob(members, "oci-layout", decode).Some? && LayoutOk(Blob(members, "oci-layout", decode).value)
    && Blob(members, "index.json", decode).Some? && Selected(Blob(members, "index.json", decode).value).Some?
    && Named(Selected(Blob(members, "index.json", decode).value).value) == Some(d)
    && Served(members, Selected(Blob(members, "index.json", decode).value).value, sha)
    && Blob(members, BlobName(d), decode).Some?
    && ManifestOk(members, Blob(members, BlobName(d), decode).value, sha, decode)
  }

  /** The loop over config and layers. */
  method CheckBlobs(members: Members, items: seq<Json>, sha: Sha) returns (ok: bool)
    ensures ok <==> AllServed(members, items, sha)
  {
    for i := 0 to |items|
      invariant forall j :: 0 <= j < i ==> Served(members, items[j], sha)
    {
      var value := Named(items[i]);
      if value.None? || Field(items[i], "size").None? { return false; }
      var name := BlobName(value.value);
      if !(name in members && members[name].File? && Equals(Field(items[i], "size").value, Size(members[name]))) {
        return false;
      }
      if SHA + sha(members[name].bytes) != value.value { return false; }
    }
    return true;
  }

  method CheckManifest(members: Members, manifest: Json, sha: Sha, decode: Decode) returns (ok: bool)
    ensures ok <==> ManifestOk(members, manifest, sha, decode)
  {
    if !manifest.Obj? { return false; }
    if Get(manifest.fields, "mediaType") !in MEDIA_TYPES { return false; }
    var items := Descriptors(manifest);
    if items.None? { return false; }
    ok := CheckBlobs(members, items.value, sha);
    if !ok { return false; }
    var config := Blob(members, BlobName(Named(items.value[0]).value), decode);
    return config.Some? && PlatformOk(config.value);
  }

  method FindImage(members: Members, sha: Sha, decode: Decode) returns (r: Option<Digest>)
    ensures r.Some? ==> Carries(members, r.value, sha, decode)
    ensures forall d :: Carries(members, d, sha, decode) ==> r == Some(d)
  {
    var layout := Blob(members, "oci-layout", decode);
    if layout.None? || !LayoutOk(layout.value) { return None; }
    var index := Blob(members, "index.json", decode);
    if index.None? { return None; }
    var descriptor := Selected(index.value);
    if descriptor.None? { return None; }
    var selected := Named(descriptor.value);
    if selected.None? || !Served(members, descriptor.value, sha) { return None; }
    var manifest := Blob(members, BlobName(selected.value), decode);
    if manifest.None? { return None; }
    var ok := CheckManifest(members, manifest.value, sha, decode);
    return if ok then selected else None;
  }

  /** `image_identity`: accepted exactly when the archive is well packed and carries an image, whose digest it
      returns. */
  method Identify(archive: seq<TarEntry>, sha: Sha, decode: Decode) returns (r: Option<Digest>)
    ensures r.Some? <==> Packed(archive)
                         && exists members, d :: Lists(archive, members) && Carries(members, d, sha, decode)
    ensures r.Some? ==> exists members :: Lists(archive, members) && Carries(members, r.value, sha, decode)
  {
    var members := ReadMembers(archive);
    if members.None? { return None; }
    r := FindImage(members.value, sha, decode);
    forall other | Lists(archive, other) ensures other == members.value { ListsUnique(archive, other, members.value); }
  }

  lemma {:induction false} ListsUnique(archive: seq<TarEntry>, a: Members, b: Members)
    requires Lists(archive, a) && Lists(archive, b)
    ensures a == b
  {
    ListsWithin(archive, a, b);
    ListsWithin(archive, b, a);
  }

  lemma {:induction false} ListsWithin(archive: seq<TarEntry>, a: Members, b: Members)
    requires Lists(archive, a) && Lists(archive, b)
    ensures forall name :: name in a ==> name in b && a[name] == b[name]
  {
    forall name | name in a ensures name in b && a[name] == b[name] {
      var i :| 0 <= i < |archive| && Names(archive[i], name);
    }
  }

  // ----- The digest fixes the content -----

  /** The bytes of the blobs, in order. */
  function Contents(members: Members, items: seq<Json>, sha: Sha): seq<Bytes>
    requires AllServed(members, items, sha)
  {
    seq(|items|, i requires 0 <= i < |items| => members[BlobName(Named(items[i]).value)].bytes)
  }

  function ManifestBytes(members: Members, d: Digest, sha: Sha): Bytes
    requires Matches(members, d, sha)
  {
    members[BlobName(d)].bytes
  }

  /** The archives hold, under one name, two texts with one hash. */
  ghost predicate BlobsClash(a: Members, b: Members, sha: Sha) {
    exists n :: n in a && n in b && a[n].File? && b[n].File? && Clash(a[n].bytes, b[n].bytes, sha)
  }

  lemma {:induction false} SameBlob(a: Members, b: Members, d: Digest, sha: Sha)
    requires Matches(a, d, sha) && Matches(b, d, sha)
    ensures a[BlobName(d)].bytes == b[BlobName(d)].bytes || BlobsClash(a, b, sha)
  {
    var x, y := a[BlobName(d)].bytes, b[BlobName(d)].bytes;
    assert (SHA + sha(x))[|SHA|..] == sha(x) && (SHA + sha(y))[|SHA|..] == sha(y);
    if x != y { assert sha(x) == sha(y); }
  }

  /** Two accepted archives with one manifest digest hold the same manifest, the same config and the same layer bytes
      in the same order, or hold under one name two texts with one hash. */
  lemma {:induction false} DigestFixesContent(a: Members, b: Members, d: Digest, sha: Sha, decode: Decode)
    requires Carries(a, d, sha, decode) && Carries(b, d, sha, decode)
    ensures Matches(a, d, sha) && Matches(b, d, sha)
    ensures BlobsClash(a, b, sha) ||
            (ManifestBytes(a, d, sha) == ManifestBytes(b, d, sha) &&
             var items := Descriptors(decode(ManifestBytes(a, d, sha)).value).value;
             && AllServed(a, items, sha) && AllServed(b, items, sha)
             && Contents(a, items, sha) == Contents(b, items, sha))
  {
    SameBlob(a, b, d, sha);
    if !BlobsClash(a, b, sha) {
      var items := Descriptors(decode(ManifestBytes(a, d, sha)).value).value;
      forall i | 0 <= i < |items| ensures Contents(a, items, sha)[i] == Contents(b, items, sha)[i] {
        SameBlob(a, b, Named(items[i]).value, sha);
      }
    }
  }
}
