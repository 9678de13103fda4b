/** Installing the repository's signature rule into an existing policy, and what the installed policy then means
    (scripts/install-signature-policy.sh, the embedded merge; ci/base-refresh.py `active_policy`). */
module SignaturePolicy {
  import opened Json

  const DEST := "ghcr.io/bearyjd/bazzite-tower"

  // ----- Reading policies -----

  function Entry(v: Json, key: string): Json { if v.Obj? && key in v.fields then v.fields[key] else Null }

  predicate HasEntry(v: Json, key: string) { v.Obj? && key in v.fields }

  /** The docker scopes of a policy; a policy without them has none. */
  function DockerScopes(current: Fields): Fields {
    if "transports" in current && HasEntry(current["transports"], "docker")
      then Mapping(current["transports"].fields["docker"]) else map[]
  }

  /** The policy to install has a default, a fallback scope and the repository's scope. */
  predicate Requested(requested: Json) {
    && HasEntry(requested, "default") && HasEntry(Entry(requested, "transports"), "docker")
    && HasEntry(Entry(Entry(requested, "transports"), "docker"), "")
    && HasEntry(Entry(Entry(requested, "transports"), "docker"), DEST)
  }

  function RequestedScope(requested: Json, scope: string): Json {
    Entry(Entry(Entry(requested, "transports"), "docker"), scope)
  }

  /** Where the policy has transports and docker scopes, they are objects. */
  predicate Open(current: Fields) {
    && ("transports" in current ==> current["transports"].Obj?)
    && ("transports" in current && "docker" in current["transports"].fields
        ==> current["transports"].fields["docker"].Obj?)
  }

  /** `d.setdefault(key, value)` */
  function SetDefault(d: Fields, key: string, value: Json): Fields { if key in d then d else d[key := value] }

  // ----- The merge -----

  function MergedDocker(docker: Fields, requested: Json): Fields {
    SetDefault(docker, "", RequestedScope(requested, ""))[DEST := RequestedScope(requested, DEST)]
  }

  function Transports(current: Fields): Fields {
    if "transports" in current then Mapping(current["transports"]) else map[]
  }

  function Merged(current: Fields, requested: Json): Fields {
    current["default" := Entry(requested, "default")]
           ["transports" := Obj(Transports(current)["docker" := Obj(MergedDocker(DockerScopes(current), requested))])]
  }

  /** The policy file; absent until something is installed. */
  class PolicyFile {
    var content: Json
    var installed: bool

    constructor (content: Json, present: bool)
      ensures this.content == content && installed == present
    {
      this.content := content;
      installed := present;
    }

    ghost function Current(): Json
      reads this
    {
      if installed then content else Obj(map[])
    }

    /** The embedded merge; the file is replaced only after every step has succeeded. */
    method Install(requested: Json) returns (ok: bool)
      modifies this
      ensures ok <==> old(Current()).Obj? && Open(old(Current()).fields) && Requested(requested)
      ensures ok ==> installed && content == Obj(Merged(old(Current()).fields, requested))
      ensures !ok ==> installed == old(installed) && content == old(content)
    {
      var current := if installed then content else Obj(map[]);
      if !HasEntry(requested, "default") || !current.Obj? { return false; }
      var fields := current.fields["default" := Entry(requested, "default")];
      assert "default" != "transports";
      fields := SetDefault(fields, "transports", Obj(map[]));
      if !fields["transports"].Obj? { return false; }
      assert fields["transports"].fields == Transports(current.fields);
      var transports := SetDefault(fields["transports"].fields, "docker", Obj(map[]));
      if !Requested(requested) || !transports["docker"].Obj? { return false; }
      assert transports["docker"].fields == DockerScopes(current.fields);
      var docker := SetDefault(transports["docker"].fields, "", RequestedScope(requested, ""));
      docker := docker[DEST := RequestedScope(requested, DEST)];
      transports := transports["docker" := Obj(docker)];
      assert transports == Transports(current.fields)["docker" := Obj(docker)];
      fields := fields["transports" := Obj(transports)];
      assert docker == MergedDocker(DockerScopes(current.fields), requested);
      assert fields == Merged(current.fields, requested);
      content, installed := Obj(fields), true;
      return true;
    }
  }

  /** What the merge changes and what it keeps. */
  lemma {:induction false} MergeKeeps(current: Fields, requested: Json)
    requires Open(current) && Requested(requested)
    ensures Open(Merged(current, requested))
    ensures Entry(Obj(Merged(current, requested)), "default") == Entry(requested, "default")
    ensures forall key :: key != "default" && key != "transports" ==>
              (key in Merged(current, requested) <==> key in current)
                  && (key in current ==> Merged(current, requested)[key] == current[key])
    ensures forall t :: t != "docker" ==>
              (t in Transports(Merged(current, requested)) <==> t in Transports(current))
              && (t in Transports(current) ==> Transports(Merged(current, requested))[t] == Transports(current)[t])
    ensures DockerScopes(Merged(current, requested)) == MergedDocker(DockerScopes(current), requested)
    ensures forall scope :: scope != "" && scope != DEST ==>
              (scope in DockerScopes(Merged(current, requested)) <==> scope in DockerScopes(current))
              && (scope in DockerScopes(current)
                  ==> DockerScopes(Merged(current, requested))[scope] == DockerScopes(current)[scope])
    ensures "" in DockerScopes(current) ==> DockerScopes(Merged(current, requested))[""] == DockerScopes(current)[""]
    ensures DEST in DockerScopes(Merged(current, requested))
    ensures DockerScopes(Merged(current, requested))[DEST] == RequestedScope(requested, DEST)
  {
    assert "default" != "transports" && DEST != "";
  }

  /** Installing twice is installing once. */
  lemma {:induction false} MergeTwice(current: Fields, requested: Json)
    requires Open(current) && Requested(requested)
    ensures Merged(Merged(current, requested), requested) == Merged(current, requested)
  {
    MergeKeeps(current, requested);
    assert "default" != "transports" && DEST != "";
    var once := DockerScopes(Merged(current, requested));
    assert MergedDocker(once, requested) == once;
    assert Transports(Merged(current, requested))["docker" := Obj(once)] == Transports(Merged(current, requested));
  }

  // ----- active_policy -----

  function Rule(kind: string, rest: Fields): Json { Obj(rest["type" := Str(kind)]) }

  const REJECT: Json := List([Rule("reject", map[])])

  const SIGNED: Json :=
    List([Rule("sigstoreSigned", map["keyPath" := Str("/etc/pki/containers/bazzite-tower-cosign.pub"),
                                     "signedIdentity" := Obj(map["type" := Str("matchRepository")])])])

  /** A scope that names something inside the repository: a tag, a digest or a path below. */
  predicate MoreSpecific(scope: string) { DEST <= scope && scope != DEST && scope[|DEST|] in {':', '@', '/'} }

  predicate NoneBelow(docker: Fields) { forall scope :: scope in docker ==> !MoreSpecific(scope) }

  predicate Active(current: Fields, requested: Json) {
    && Entry(Obj(current), "default") == Entry(requested, "default") == REJECT
    && DEST in DockerScopes(current) && DockerScopes(current)[DEST] == RequestedScope(requested, DEST) == SIGNED
    && NoneBelow(DockerScopes(current))
  }

  /** A merged policy is active exactly when no more specific scope was there before. */
  lemma {:induction false} MergedIsActive(current: Fields, requested: Json)
    requires Open(current) && Requested(requested)
    requires Entry(requested, "default") == REJECT && RequestedScope(requested, DEST) == SIGNED
    ensures Active(Merged(current, requested), requested) <==> NoneBelow(DockerScopes(current))
  {
    MergeKeeps(current, requested);
    assert !MoreSpecific("") && !MoreSpecific(DEST);
    var before, after := DockerScopes(current), DockerScopes(Merged(current, requested));
    forall scope ensures scope in after && MoreSpecific(scope) <==> scope in before && MoreSpecific(scope) { }
  }

  // ----- Which rule an image gets -----

  /** The first scope with a rule. */
  function FirstPresent(docker: Fields, scopes: seq<string>, fallback: Json): Json {
    if scopes == [] then fallback
    else if scopes[0] in docker then docker[scopes[0]]
    else FirstPresent(docker, scopes[1..], fallback)
  }

  /** Docker transport lookup of containers-policy.json(5): the full image name, the repository, then the wider
      scopes (namespaces, host, wildcards), the empty scope, and the policy's default. */
  function Lookup(current: Fields, image: string, wider: seq<string>): Json {
    FirstPresent(DockerScopes(current), [image, DEST] + wider + [""], Entry(Obj(current), "default"))
  }

  /** A tag or a digest of the repository, as an image and as a scope. */
  predicate Pinned(scope: string) { DEST < scope && scope[|DEST|] in {':', '@'} }

  lemma {:induction false} PinnedLookup(current: Fields, image: string, wider: seq<string>)
    requires DEST in DockerScopes(current)
    ensures Lookup(current, image, wider) ==
            if image in DockerScopes(current) then DockerScopes(current)[image] else DockerScopes(current)[DEST]
  {
    var scopes := [image, DEST] + wider + [""];
    var docker, fallback := DockerScopes(current), Entry(Obj(current), "default");
    assert scopes[0] == image && scopes[1..][0] == DEST;
    assert image !in docker ==> FirstPresent(docker, scopes, fallback) == FirstPresent(docker, scopes[1..], fallback);
  }

  /** With the repository's rule in place, every tag and digest must be signed if and only if every rule on a tag or
      digest scope is that rule. Scopes below the repository's path decide nothing about its own tags and digests. */
  lemma {:induction false} SignedExactly(current: Fields, wider: seq<string>)
    requires DEST in DockerScopes(current) && DockerScopes(current)[DEST] == SIGNED
    ensures (forall image :: Pinned(image) ==> Lookup(current, image, wider) == SIGNED) <==>
            (forall scope :: Pinned(scope) && scope in DockerScopes(current) ==> DockerScopes(current)[scope] == SIGNED)
  {
    forall image | Pinned(image)
      ensures Lookup(current, image, wider) == SIGNED <==>
              (image in DockerScopes(current) ==> DockerScopes(current)[image] == SIGNED)
    {
      PinnedLookup(current, image, wider);
    }
  }

  /** Under an active policy every tag and every digest of the repository must be signed with the repository's key. */
  lemma {:induction false} ActiveMeansSigned(current: Fields, requested: Json, image: string, wider: seq<string>)
    requires Active(current, requested) && Pinned(image)
    ensures Lookup(current, image, wider) == SIGNED
  {
    assert MoreSpecific(image);
    PinnedLookup(current, image, wider);
  }
}
