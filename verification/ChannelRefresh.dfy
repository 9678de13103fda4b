/** The channel refresh: signed provenance, the baseline gate, and tags that move one at a time
    (ci/base-refresh.py `evidence`, `monotonic`, `bootstrap_failure`, `baseline`; the publisher steps of
    .github/workflows/base-refresh.yml).

    Publisher jobs run one after another (the workflow's concurrency group) and a run may stop after
    any step. Attempts are started in the order GitHub numbers them. */
module ChannelRefresh {
  import opened Options
  import opened Versions
  import opened Orders

  type Digest = string

  datatype Profile = Legacy | System

  /** Kind, repository, workflow and ref of a provenance record. */
  datatype Origin = Origin(kind: string, repository: string, workflow: string, ref: string)

  datatype Proof = Proof(origin: Origin, profile: Profile, version: string, kernel: string)

  /** The reviewed policy, as far as it may differ from run to run. */
  datatype Policy = Policy(origin: Origin, minimumBase: string, minimumKernel: string)

  // ----- The parts of the policy every run insists on -----

  const BOOTSTRAP_RUN: nat := 2

  const BOOTSTRAP_DIGEST := "sha256:3f9a0d238e69917a33a23710a53963e70b64526cc8e44f9d24787944dcca1f27"

  predicate AllowMissing(profile: Profile) { profile == Legacy }

  function BootstrapDigest(profile: Profile): Option<Digest> {
    if profile == System then Some(BOOTSTRAP_DIGEST) else None
  }

  datatype Tag = Stable | Latest | SnitchwatchSystem

  function Channels(profile: Profile): seq<Tag> { if profile == Legacy then [Stable, Latest] else [SnitchwatchSystem] }

  // ----- evidence and monotonic -----

  /** Both versions parse and neither is lower than the other record's. */
  predicate NotBelow(version: string, kernel: string, thanVersion: string, thanKernel: string) {
    && BaseVersion(version).Some? && BaseVersion(thanVersion).Some?
    && Le(BaseVersion(thanVersion).value, BaseVersion(version).value)
    && KernelVersion(kernel).Some? && KernelVersion(thanKernel).Some?
    && Le(KernelVersion(thanKernel).value, KernelVersion(kernel).value)
  }

  /** `evidence`: a provenance record, or a refusal below the floor. */
  function Evidence(p: Policy, profile: Profile, version: string, kernel: string): Option<Proof> {
    if NotBelow(version, kernel, p.minimumBase, p.minimumKernel) then Some(Proof(p.origin, profile, version, kernel))
    else None
  }

  predicate ProofLe(a: Proof, b: Proof) { NotBelow(b.version, b.kernel, a.version, a.kernel) }

  /** `monotonic` */
  predicate Monotonic(p: Policy, proof: Proof, previous: Proof) {
    previous.origin == p.origin && previous.profile == proof.profile && ProofLe(previous, proof)
  }

  lemma {:induction false} ProofLeTransitive(a: Proof, b: Proof, c: Proof)
    requires ProofLe(a, b) && ProofLe(b, c)
    ensures ProofLe(a, c)
  {
    LeOrders(BaseVersion(a.version).value, BaseVersion(b.version).value, BaseVersion(c.version).value);
    LeOrders(KernelVersion(a.kernel).value, KernelVersion(b.kernel).value, KernelVersion(c.kernel).value);
  }

  lemma {:induction false} EvidenceAboveItself(p: Policy, profile: Profile, version: string, kernel: string)
    requires Evidence(p, profile, version, kernel).Some?
    ensures var proof := Evidence(p, profile, version, kernel).value; ProofLe(proof, proof)
  {
    LeOrders(BaseVersion(version).value, [], []);
    LeOrders(KernelVersion(kernel).value, [], []);
  }

  // ----- The registry and the run history -----

  type Run = (nat, nat) // run number and attempt

  /** The one attempt that may find its channel missing. */
  const RECOVERY: Run := (BOOTSTRAP_RUN, 1)

  /** A move of one channel tag by a publisher. */
  datatype Move = Move(run: Run, profile: Profile, tag: Tag, digest: Digest, proof: Proof)

  datatype World = World(tags: map<Tag, Digest>, signed: set<Digest>, proofs: map<Digest, seq<Proof>>,
                         ran: set<Run>, skipped: set<Run>, current: Option<Run>, published: set<Profile>,
                         log: seq<Move>, missing: seq<Run>)

  function ProofsOf(w: World, digest: Digest): seq<Proof> { if digest in w.proofs then w.proofs[digest] else [] }

  /** `bootstrap_failure`: run 1 is at its first attempt and both its publishers were skipped. */
  ghost predicate BootstrapFailure(w: World) {
    (1, 1) in w.ran && (1, 1) in w.skipped && forall r :: r in w.ran && r.0 == 1 ==> r.1 == 1
  }

  /** `baseline` accepts. */
  ghost predicate Accepts(w: World, p: Policy, profile: Profile, proof: Proof, run: Run) {
    if Channels(profile)[0] !in w.tags then
      AllowMissing(profile) && run == RECOVERY && BootstrapFailure(w)
    else
      var digest := w.tags[Channels(profile)[0]];
      && digest in w.signed
      && (Some(digest) == BootstrapDigest(profile)
          || (ProofsOf(w, digest) != []
              && forall i :: 0 <= i < |ProofsOf(w, digest)| ==> Monotonic(p, proof, ProofsOf(w, digest)[i])))
  }

  /** `baseline`, with its loop over the signed records; `failure` is the answer of the run history interface. */
  method Baseline(w: World, p: Policy, profile: Profile, proof: Proof, run: Run, failure: bool) returns (ok: bool)
    requires failure <==> BootstrapFailure(w)
    ensures ok <==> Accepts(w, p, profile, proof, run)
  {
    var channel := Channels(profile)[0];
    if channel !in w.tags {
      return AllowMissing(profile) && run.0 == BOOTSTRAP_RUN && run.1 == 1 && failure;
    }
    var digest := w.tags[channel];
    if digest !in w.signed { return false; }
    if Some(digest) == BootstrapDigest(profile) { return true; }
    var values := ProofsOf(w, digest);
    if values == [] { return false; }
    for i := 0 to |values|
      invariant forall j :: 0 <= j < i ==> Monotonic(p, proof, values[j])
    {
      if !Monotonic(p, proof, values[i]) { return false; }
    }
    return true;
  }

  // ----- Steps -----

  datatype Event =
    | Begin(run: Run, skip: bool) // an attempt starts; its publishers may be skipped
    | Publish(profile: Profile, policy: Policy, digest: Digest, proof: Proof, reached: bool, moved: nat)
    | Delete(tag: Tag) // somebody removes a tag
    | Sign(digest: Digest) // somebody signs another image

  /** Sign and attest, before the baseline is looked at. */
  function Attested(w: World, digest: Digest, proof: Proof): World {
    w.(signed := w.signed + {digest}, proofs := w.proofs[digest := ProofsOf(w, digest) + [proof]])
  }

  /** The first channels moved, in order. */
  function Moves(run: Run, profile: Profile, digest: Digest, proof: Proof, channels: seq<Tag>): seq<Move> {
    seq(|channels|, i requires 0 <= i < |channels| => Move(run, profile, channels[i], digest, proof))
  }

  function Pointed(tags: map<Tag, Digest>, channels: seq<Tag>, digest: Digest): map<Tag, Digest> {
    if channels == [] then tags
    else Pointed(tags, channels[..|channels| - 1], digest)[channels[|channels| - 1] := digest]
  }

  /** GitHub starts first attempts in order and gives each attempt once. */
  ghost predicate MayBegin(w: World, run: Run) {
    && run !in w.ran && run.0 >= 1 && run.1 >= 1
    && (run.1 == 1 ==> forall r :: r in w.ran ==> r.0 < run.0)
    && (run.1 > 1 ==> (run.0, run.1 - 1) in w.ran)
  }

  /** A publisher of the current attempt: attest, then the gate, then some of the tags. */
  ghost predicate MayPublish(w: World, e: Event)
    requires e.Publish?
  {
    && w.current.Some? && w.current.value !in w.skipped && e.profile !in w.published
    && Evidence(e.policy, e.profile, e.proof.version, e.proof.kernel) == Some(e.proof)
    && e.moved <= |Channels(e.profile)|
    && (e.moved > 0 ==> e.reached)
    && (e.reached ==> Accepts(Attested(w, e.digest, e.proof), e.policy, e.profile, e.proof, w.current.value))
  }

  ghost function Next(w: World, e: Event): Option<World> {
    match e
    case Begin(run, skip) =>
      if !MayBegin(w, run) then None
      else Some(w.(ran := w.ran + {run}, skipped := if skip then w.skipped + {run} else w.skipped,
                   current := Some(run), published := {}))
    case Publish(profile, policy, digest, proof, reached, moved) =>
      if !MayPublish(w, e) then None
      else
        var channels := Channels(profile)[..moved];
        Some(Attested(w, digest, proof).(
          tags := Pointed(w.tags, channels, digest),
          published := w.published + {profile},
          log := w.log + Moves(w.current.value, profile, digest, proof, channels),
          missing := if reached && Channels(profile)[0] !in w.tags then w.missing + [w.current.value] else w.missing))
    case Delete(tag) => Some(w.(tags := w.tags - {tag}))
    case Sign(digest) => Some(w.(signed := w.signed + {digest}))
  }

  ghost function Trace(w: World, es: seq<Event>): Option<World> {
    if es == [] then Some(w)
    else
      match Trace(w, es[..|es| - 1])
      case None => None
      case Some(v) => Next(v, es[|es| - 1])
  }

  /** The moves made along a history. */
  ghost function LogOf(w: World, es: seq<Event>): seq<Move> {
    if Trace(w, es).Some? then Trace(w, es).value.log else []
  }

  /** Before the first refresh: whatever tags and signatures exist, no attempt has run and no refresh record exists. */
  predicate Initial(w: World) {
    w.proofs == map[] && w.ran == {} && w.skipped == {} && w.current == None && w.published == {} && w.log == []
        && w.missing == []
  }

  // ----- What every step keeps -----

  /** The last move of a profile's first channel. */
  function Lead(log: seq<Move>, profile: Profile): Option<Move> {
    if log == [] then None
    else if log[|log| - 1].tag == Channels(profile)[0] then Some(log[|log| - 1])
    else Lead(log[..|log| - 1], profile)
  }

  /** No move of this profile in [i, j) published the digest that the gate lets pass unread. */
  ghost predicate Read(log: seq<Move>, profile: Profile, i: int, j: int) {
    forall k :: 0 <= k < |log| && i <= k < j && log[k].profile == profile
        ==> Some(log[k].digest) != BootstrapDigest(profile)
  }

  /** Of two moves of a profile the later does not carry a lower version or kernel, if every digest since was read. */
  ghost predicate Ascending(log: seq<Move>, profile: Profile) {
    forall i, j :: 0 <= i <= j < |log| && log[i].profile == profile && log[j].profile == profile
        && Read(log, profile, i, j)
      ==> ProofLe(log[i].proof, log[j].proof)
  }

  /** Every move is signed and attested, belongs to its profile's tags and to a run that was not skipped. */
  ghost predicate Grounded(w: World) {
    forall i :: 0 <= i < |w.log| ==>
      && w.log[i].proof in ProofsOf(w, w.log[i].digest) && w.log[i].digest in w.signed
      && w.log[i].tag in Channels(w.log[i].profile) && w.log[i].run in w.ran && w.log[i].run !in w.skipped
      && (w.current == Some(w.log[i].run) ==> w.log[i].profile in w.published)
  }

  /** A profile that has moved has a lead, and its first channel, if there, holds the lead. */
  ghost predicate Tracked(w: World, profile: Profile) {
    && (forall i :: 0 <= i < |w.log| && w.log[i].profile == profile ==> Lead(w.log, profile).Some?)
    && (Lead(w.log, profile).Some? ==>
          && Lead(w.log, profile).value in w.log
          && (Channels(profile)[0] in w.tags ==> w.tags[Channels(profile)[0]] == Lead(w.log, profile).value.digest))
  }

  /** The lead is at least as high as every move since whose publication all digests were read. */
  ghost predicate Led(log: seq<Move>, profile: Profile) {
    forall i :: 0 <= i < |log| && log[i].profile == profile && Read(log, profile, i, |log|)
      ==> Lead(log, profile).Some? && ProofLe(log[i].proof, Lead(log, profile).value.proof)
  }

  /** While a first attempt is current, it is the newest run. */
  ghost predicate Newest(w: World) {
    && (w.current.Some? ==> w.current.value in w.ran)
    && (w.current.Some? && w.current.value.1 == 1 ==>
          forall r :: r in w.ran ==> r.0 < w.current.value.0 || r == w.current.value)
    && (forall r :: r in w.ran ==> r.0 >= 1 && r.1 >= 1)
  }

  ghost predicate MissingOnce(w: World) {
    w.missing == [] || (w.missing == [RECOVERY] && RECOVERY in w.ran
                        && (w.current == Some(RECOVERY) ==> Legacy in w.published))
  }

  ghost predicate Forward(w: World, profile: Profile) {
    Tracked(w, profile) && Ascending(w.log, profile) && Led(w.log, profile)
  }

  ghost predicate Invariant(w: World) {
    Grounded(w) && Newest(w) && MissingOnce(w) && Forward(w, Legacy) && Forward(w, System)
  }

  // ----- The gate dominates what was published -----

  ghost predicate Dominates(log: seq<Move>, profile: Profile, proof: Proof) {
    forall i :: 0 <= i < |log| && log[i].profile == profile && Read(log, profile, i, |log|)
        ==> ProofLe(log[i].proof, proof)
  }

  lemma {:induction false} TagsOfOneProfile(tag: Tag, a: Profile, b: Profile)
    requires tag in Channels(a) && tag in Channels(b)
    ensures a == b
  {
  }

  /** The lead is the last move of the first channel. */
  lemma {:induction false} LeadAfter(log: seq<Move>, profile: Profile, i: nat)
    requires i < |log| && log[i].tag == Channels(profile)[0]
    ensures exists k :: i <= k < |log| && Lead(log, profile) == Some(log[k])
  {
    var n := |log| - 1;
    if log[n].tag != Channels(profile)[0] {
      LeadAfter(log[..n], profile, i);
      var k :| i <= k < n && Lead(log[..n], profile) == Some(log[..n][k]);
      assert Lead(log, profile) == Some(log[k]);
    }
  }

  lemma {:induction false} LeadTag(log: seq<Move>, profile: Profile)
    requires Lead(log, profile).Some?
    ensures Lead(log, profile).value.tag == Channels(profile)[0]
  {
    if log[|log| - 1].tag != Channels(profile)[0] { LeadTag(log[..|log| - 1], profile); }
  }

  lemma {:induction false} LeadProfile(w: World, profile: Profile)
    requires Grounded(w) && Tracked(w, profile) && Lead(w.log, profile).Some?
    ensures var lead := Lead(w.log, profile).value;
            lead.profile == profile && lead.digest in w.signed && lead.proof in ProofsOf(w, lead.digest)
  {
    var lead := Lead(w.log, profile).value;
    LeadTag(w.log, profile);
    var k :| 0 <= k < |w.log| && w.log[k] == lead;
    TagsOfOneProfile(lead.tag, lead.profile, profile);
  }

  /** A gate that reads the records of the lead accepts nothing lower. */
  lemma {:induction false} GateReadsLead(w: World, e: Event)
    requires e.Publish? && Grounded(w) && Tracked(w, e.profile) && Lead(w.log, e.profile).Some?
    requires MayPublish(w, e) && e.reached && Channels(e.profile)[0] in w.tags
    requires Some(Lead(w.log, e.profile).value.digest) != BootstrapDigest(e.profile)
    ensures ProofLe(Lead(w.log, e.profile).value.proof, e.proof)
  {
    var lead := Lead(w.log, e.profile).value;
    LeadProfile(w, e.profile);
    var after := Attested(w, e.digest, e.proof);
    var values := ProofsOf(after, lead.digest);
    assert lead.proof in values;
    var n :| 0 <= n < |values| && values[n] == lead.proof;
    assert Monotonic(e.policy, e.proof, values[n]);
  }

  /** If every digest since a move was read, the digest of the lead was. */
  lemma {:induction false} LeadIsRead(w: World, profile: Profile, i: nat)
    requires Grounded(w) && i < |w.log| && w.log[i].profile == profile && Read(w.log, profile, i, |w.log|)
    requires Lead(w.log, profile).Some?
    ensures Some(Lead(w.log, profile).value.digest) != BootstrapDigest(profile)
  {
    if profile == System {
      assert w.log[i].tag == SnitchwatchSystem;
      LeadAfter(w.log, profile, i);
      var k :| i <= k < |w.log| && Lead(w.log, profile) == Some(w.log[k]);
      TagsOfOneProfile(w.log[k].tag, w.log[k].profile, profile) by { LeadTag(w.log, profile); }
    }
  }

  lemma {:induction false} GateDominates(w: World, e: Event)
    requires e.Publish? && Grounded(w) && Forward(w, e.profile)
    requires MayPublish(w, e) && e.reached && Channels(e.profile)[0] in w.tags
    ensures Dominates(w.log, e.profile, e.proof)
  {
    forall i | 0 <= i < |w.log| && w.log[i].profile == e.profile && Read(w.log, e.profile, i, |w.log|)
      ensures ProofLe(w.log[i].proof, e.proof)
    {
      var lead := Lead(w.log, e.profile).value;
      LeadIsRead(w, e.profile, i);
      GateReadsLead(w, e);
      ProofLeTransitive(w.log[i].proof, lead.proof, e.proof);
    }
  }

  /** The recovery path is open only while nothing of the profile has been published. */
  lemma {:induction false} RecoveryStartsFresh(w: World, e: Event)
    requires e.Publish? && Grounded(w) && Newest(w) && MissingOnce(w)
    requires MayPublish(w, e) && e.reached && Channels(e.profile)[0] !in w.tags
    ensures e.profile == Legacy && w.current == Some(RECOVERY) && w.missing == []
    ensures forall i :: 0 <= i < |w.log| ==> w.log[i].profile != Legacy
  {
    var after := Attested(w, e.digest, e.proof);
    assert BootstrapFailure(after);
    forall i | 0 <= i < |w.log| ensures w.log[i].profile != Legacy {
      var run := w.log[i].run;
      assert run in after.ran;
      assert run == RECOVERY || run == (1, 1);
    }
  }

  lemma {:induction false} PublishDominates(w: World, e: Event)
    requires e.Publish? && Invariant(w) && MayPublish(w, e) && e.reached
    ensures Dominates(w.log, e.profile, e.proof)
  {
    if Channels(e.profile)[0] in w.tags {
      GateDominates(w, e);
    } else {
      RecoveryStartsFresh(w, e);
    }
  }

  // ----- Each step keeps the invariants -----

  lemma {:induction false} LeadMore(log: seq<Move>, m: Move, profile: Profile)
    ensures Lead(log + [m], profile) == if m.tag == Channels(profile)[0] then Some(m) else Lead(log, profile)
  {
    assert (log + [m])[..|log|] == log;
  }

  /** The moves of one publication: none, the first channel, or for the aliases both. */
  lemma {:induction false} LeadPublished(log: seq<Move>, run: Run, profile: Profile, digest: Digest, proof: Proof,
                                         moved: nat, other: Profile)
    requires moved <= |Channels(profile)|
    ensures var more := Moves(run, profile, digest, proof, Channels(profile)[..moved]);
            Lead(log + more, other) ==
            if moved == 0 || other != profile then Lead(log, other)
            else Some(Move(run, profile, Channels(profile)[0], digest, proof))
  {
    var more := Moves(run, profile, digest, proof, Channels(profile)[..moved]);
    if moved == 0 {
      assert log + more == log;
    } else if moved == 1 {
      assert log + more == log + [more[0]];
      LeadMore(log, more[0], other);
    } else {
      assert log + more == (log + [more[0]]) + [more[1]];
      LeadMore(log, more[0], other);
      LeadMore(log + [more[0]], more[1], other);
    }
  }

  lemma {:induction false} PointedReads(tags: map<Tag, Digest>, channels: seq<Tag>, digest: Digest, tag: Tag)
    ensures tag in channels ==> tag in Pointed(tags, channels, digest) && Pointed(tags, channels, digest)[tag] == digest
    ensures tag !in channels ==> (tag in Pointed(tags, channels, digest) <==> tag in tags)
    ensures tag !in channels && tag in tags ==> Pointed(tags, channels, digest)[tag] == tags[tag]
  {
    if channels != [] { PointedReads(tags, channels[..|channels| - 1], digest, tag); }
  }

  lemma {:induction false} ReadBefore(log: seq<Move>, more: seq<Move>, profile: Profile, i: nat, j: nat)
    requires i <= j <= |log + more| && Read(log + more, profile, i, j)
    ensures Read(log, profile, i, if j < |log| then j else |log|)
  {
    forall k | 0 <= k < |log| && i <= k < j && log[k].profile == profile
      ensures Some(log[k].digest) != BootstrapDigest(profile) {
      assert (log + more)[k] == log[k];
    }
  }

  /** The new moves of one publication carry one record, at least as high as all that is dominated. */
  ghost predicate Tops(log: seq<Move>, more: seq<Move>, profile: Profile, proof: Proof) {
    forall i :: 0 <= i < |more| && more[i].profile == profile ==>
      more[i].proof == proof && Dominates(log, profile, proof) && ProofLe(proof, proof)
  }

  lemma {:induction false} AscendingKept(log: seq<Move>, more: seq<Move>, profile: Profile, proof: Proof)
    requires Ascending(log, profile) && Tops(log, more, profile, proof)
    ensures Ascending(log + more, profile)
  {
    var all := log + more;
    forall i, j | 0 <= i <= j < |all| && all[i].profile == profile && all[j].profile == profile
        && Read(all, profile, i, j)
      ensures ProofLe(all[i].proof, all[j].proof)
    {
      ReadBefore(log, more, profile, i, j);
      if j >= |log| { assert all[j] == more[j - |log|]; }
      if i >= |log| { assert all[i] == more[i - |log|]; }
    }
  }

  lemma {:induction false} LedKept(log: seq<Move>, more: seq<Move>, profile: Profile, proof: Proof)
    requires Led(log, profile) && Tops(log, more, profile, proof)
    requires more == [] || more[0].profile != profile ==> Lead(log + more, profile) == Lead(log, profile)
    requires more != [] && more[0].profile == profile ==> Lead(log + more, profile) == Some(more[0])
    requires forall i :: 0 <= i < |more| ==> more[i].profile == more[0].profile
    ensures Led(log + more, profile)
  {
    var all := log + more;
    forall i | 0 <= i < |all| && all[i].profile == profile && Read(all, profile, i, |all|)
      ensures Lead(all, profile).Some? && ProofLe(all[i].proof, Lead(all, profile).value.proof)
    {
      ReadBefore(log, more, profile, i, |all|);
      if i >= |log| { assert all[i] == more[i - |log|]; }
    }
  }

  lemma {:induction false} TrackedKept(w: World, v: World, more: seq<Move>, profile: Profile)
    requires Tracked(w, profile) && v.log == w.log + more
    requires forall i :: 0 <= i < |more| ==> more[i].profile == more[0].profile
    requires more == [] || more[0].profile != profile ==>
               Lead(v.log, profile) == Lead(w.log, profile) &&
               forall t :: t == Channels(profile)[0] && t in v.tags ==> t in w.tags && v.tags[t] == w.tags[t]
    requires more != [] && more[0].profile == profile ==>
               Lead(v.log, profile) == Some(more[0]) &&
               Channels(profile)[0] in v.tags && v.tags[Channels(profile)[0]] == more[0].digest
    ensures Tracked(v, profile)
  {
    forall i | 0 <= i < |v.log| && v.log[i].profile == profile ensures Lead(v.log, profile).Some? {
      if i >= |w.log| { assert v.log[i] == more[i - |w.log|]; } else { assert v.log[i] == w.log[i]; }
    }
    if Lead(v.log, profile).Some? {
      assert more != [] ==> v.log[|w.log|] == more[0];
    }
  }

  function MovesOf(w: World, e: Event): seq<Move>
    requires e.Publish? && w.current.Some? && e.moved <= |Channels(e.profile)|
  {
    Moves(w.current.value, e.profile, e.digest, e.proof, Channels(e.profile)[..e.moved])
  }

  lemma {:induction false} FirstChannel(w: World, e: Event, v: World, other: Profile)
    requires e.Publish? && MayPublish(w, e) && v.tags == Pointed(w.tags, Channels(e.profile)[..e.moved], e.digest)
    requires v.log == w.log + MovesOf(w, e)
    ensures other == e.profile && e.moved > 0 ==>
              && Lead(v.log, other) == Some(MovesOf(w, e)[0])
              && Channels(other)[0] in v.tags && v.tags[Channels(other)[0]] == e.digest
    ensures other != e.profile || e.moved == 0 ==>
              && Lead(v.log, other) == Lead(w.log, other)
              && (Channels(other)[0] in v.tags <==> Channels(other)[0] in w.tags)
              && (Channels(other)[0] in w.tags ==> v.tags[Channels(other)[0]] == w.tags[Channels(other)[0]])
  {
    LeadPublished(w.log, w.current.value, e.profile, e.digest, e.proof, e.moved, other);
    PointedReads(w.tags, Channels(e.profile)[..e.moved], e.digest, Channels(other)[0]);
  }

  /** What a publication adds to a profile is at least as high as all that is dominated. */
  lemma {:induction false} PublishTops(w: World, e: Event, profile: Profile)
    requires e.Publish? && Invariant(w) && MayPublish(w, e)
    ensures Tops(w.log, MovesOf(w, e), profile, e.proof)
  {
    if profile == e.profile && e.moved > 0 {
      PublishDominates(w, e);
      EvidenceAboveItself(e.policy, profile, e.proof.version, e.proof.kernel);
    }
  }

  lemma {:induction false} PublishForward(w: World, e: Event, v: World, profile: Profile)
    requires e.Publish? && Invariant(w) && Forward(w, profile) && MayPublish(w, e)
    requires v.tags == Pointed(w.tags, Channels(e.profile)[..e.moved], e.digest) && v.log == w.log + MovesOf(w, e)
    ensures Forward(v, profile)
  {
    var more := MovesOf(w, e);
    FirstChannel(w, e, v, profile);
    PublishTops(w, e, profile);
    AscendingKept(w.log, more, profile, e.proof);
    LedKept(w.log, more, profile, e.proof);
    TrackedKept(w, v, more, profile);
  }

  lemma {:induction false} PublishGrounded(w: World, e: Event, v: World)
    requires e.Publish? && Grounded(w) && Newest(w) && MayPublish(w, e) && v.log == w.log + MovesOf(w, e)
    requires v.proofs == Attested(w, e.digest, e.proof).proofs && v.signed == Attested(w, e.digest, e.proof).signed
    requires v.ran == w.ran && v.skipped == w.skipped
    requires v.current == w.current && v.published == w.published + {e.profile}
    ensures Grounded(v)
  {
    forall i | 0 <= i < |v.log|
      ensures v.log[i].proof in ProofsOf(v, v.log[i].digest) && v.log[i].digest in v.signed
      ensures v.log[i].tag in Channels(v.log[i].profile)
      ensures v.log[i].run in v.ran && v.log[i].run !in v.skipped
      ensures v.current == Some(v.log[i].run) ==> v.log[i].profile in v.published
    {
      if i < |w.log| {
        assert v.log[i] == w.log[i];
      } else {
        assert v.log[i] == MovesOf(w, e)[i - |w.log|];
        assert e.proof in ProofsOf(w, e.digest) + [e.proof];
      }
    }
  }

  lemma {:induction false} PublishKeeps(w: World, e: Event, v: World)
    requires e.Publish? && Invariant(w) && Next(w, e) == Some(v)
    ensures Invariant(v)
  {
    PublishGrounded(w, e, v);
    if e.reached && Channels(e.profile)[0] !in w.tags { RecoveryStartsFresh(w, e); }
    PublishForward(w, e, v, Legacy);
    PublishForward(w, e, v, System);
  }

  lemma {:induction false} BeginKeeps(w: World, e: Event, v: World)
    requires e.Begin? && Invariant(w) && Next(w, e) == Some(v)
    ensures Invariant(v)
  {
    assert forall i :: 0 <= i < |w.log| ==> w.log[i].run != e.run;
    assert Grounded(v);
  }

  /** Every step of the registry keeps the invariants: no profile goes back past digests that were read. */
  lemma {:induction false} StepKeeps(w: World, e: Event, v: World)
    requires Invariant(w) && Next(w, e) == Some(v)
    ensures Invariant(v)
  {
    match e
    case Begin(_, _) => BeginKeeps(w, e, v);
    case Publish(_, _, _, _, _, _) => PublishKeeps(w, e, v);
    case Delete(_) =>
    case Sign(_) =>
  }

  // ----- Over every run -----

  lemma {:induction false} TraceKeeps(w: World, es: seq<Event>)
    requires Initial(w) && Trace(w, es).Some?
    ensures Invariant(Trace(w, es).value)
  {
    if es != [] {
      var n := |es| - 1;
      TraceKeeps(w, es[..n]);
      StepKeeps(Trace(w, es[..n]).value, es[n], Trace(w, es).value);
    }
  }

  /** Over every history of runs, refusals, partial moves and deletions, no alias ever goes back: of two moves of a
      profile's channels the later carries a base version and a kernel at least as high. For the system profile the
      gate accepts one digest unread; it must not have been published by a move from the earlier to the later. */
  lemma {:induction false} ChannelsNeverGoBack(w: World, es: seq<Event>, profile: Profile, i: nat, j: nat)
    requires Initial(w) && Trace(w, es).Some? && i <= j < |LogOf(w, es)|
    requires LogOf(w, es)[i].profile == profile && LogOf(w, es)[j].profile == profile
    requires profile == System ==> Read(LogOf(w, es), System, i, j)
    ensures ProofLe(LogOf(w, es)[i].proof, LogOf(w, es)[j].proof)
  {
    TraceKeeps(w, es);
    assert Read(LogOf(w, es), profile, i, j);
    assert Forward(Trace(w, es).value, profile);
  }

  /** When a channel can go back: on any reachable registry, a record below the one last published on the first channel
      is accepted if and only if that channel is there and holds the one digest its gate accepts unread. */
  lemma {:induction false} LowerAcceptedExactly(w: World, es: seq<Event>, p: Policy, profile: Profile, digest: Digest,
                                                low: Proof, moved: nat)
    requires Initial(w) && Trace(w, es).Some? && Lead(LogOf(w, es), profile).Some?
    requires MayAttest(Trace(w, es).value, p, profile, low) && moved <= |Channels(profile)|
    requires !ProofLe(Lead(LogOf(w, es), profile).value.proof, low)
    ensures MayPublish(Trace(w, es).value, Publish(profile, p, digest, low, true, moved)) <==>
            && Channels(profile)[0] in Trace(w, es).value.tags
            && Some(Lead(LogOf(w, es), profile).value.digest) == BootstrapDigest(profile)
  {
    TraceKeeps(w, es);
    LowerAccepted(Trace(w, es).value, Publish(profile, p, digest, low, true, moved));
  }

  /** The current attempt has a publisher for the profile that has not finished, with a record above the floor. */
  ghost predicate MayAttest(w: World, p: Policy, profile: Profile, proof: Proof) {
    && w.current.Some? && w.current.value !in w.skipped && profile !in w.published
    && Evidence(p, profile, proof.version, proof.kernel) == Some(proof)
  }

  lemma {:induction false} LowerAccepted(w: World, e: Event)
    requires e.Publish? && Invariant(w) && Lead(w.log, e.profile).Some? && e.reached && e.moved <= |Channels(e.profile)|
    requires MayAttest(w, e.policy, e.profile, e.proof) && !ProofLe(Lead(w.log, e.profile).value.proof, e.proof)
    ensures MayPublish(w, e) <==>
            Channels(e.profile)[0] in w.tags && Some(Lead(w.log, e.profile).value.digest) == BootstrapDigest(e.profile)
  {
    LeadProfile(w, e.profile);
    if MayPublish(w, e) {
      if Channels(e.profile)[0] in w.tags {
        if Some(Lead(w.log, e.profile).value.digest) != BootstrapDigest(e.profile) { GateReadsLead(w, e); }
      } else {
        RecoveryStartsFresh(w, e);
      }
    }
  }

  /** The recovery path is taken at most once. */
  lemma {:induction false} RecoveryAtMostOnce(w: World, es: seq<Event>)
    requires Initial(w) && Trace(w, es).Some?
    ensures |Trace(w, es).value.missing| <= 1
  {
    TraceKeeps(w, es);
  }

  /** `latest` is never ahead of `stable`, although only `stable` is inspected. */
  lemma {:induction false} LatestNeverAhead(w: World, es: seq<Event>, i: nat)
    requires Initial(w) && Trace(w, es).Some? && i < |LogOf(w, es)| && LogOf(w, es)[i].tag == Latest
    ensures Lead(LogOf(w, es), Legacy).Some? && Lead(LogOf(w, es), Legacy).value.tag == Stable
    ensures ProofLe(LogOf(w, es)[i].proof, Lead(LogOf(w, es), Legacy).value.proof)
  {
    TraceKeeps(w, es);
    var v := Trace(w, es).value;
    TagsOfOneProfile(Latest, v.log[i].profile, Legacy);
    assert Forward(v, Legacy) && Read(v.log, Legacy, i, |v.log|);
    LeadTag(v.log, Legacy);
  }

  ghost predicate FloorIs(es: seq<Event>, version: string, kernel: string) {
    forall i :: 0 <= i < |es| && es[i].Publish?
        ==> es[i].policy.minimumBase == version && es[i].policy.minimumKernel == kernel
  }

  /** Whatever a refresh published on a channel is above the policy floor. */
  lemma {:induction false} PublishedAboveFloor(w: World, es: seq<Event>, version: string, kernel: string, i: nat)
    requires Initial(w) && Trace(w, es).Some? && FloorIs(es, version, kernel) && i < |LogOf(w, es)|
    ensures NotBelow(LogOf(w, es)[i].proof.version, LogOf(w, es)[i].proof.kernel, version, kernel)
  {
    if es != [] {
      var n := |es| - 1;
      var v := Trace(w, es[..n]).value;
      assert forall k :: 0 <= k < n && es[..n][k].Publish? ==> es[k].Publish?;
      if i < |v.log| {
        PublishedAboveFloor(w, es[..n], version, kernel, i);
        assert LogOf(w, es)[i] == v.log[i];
      } else {
        assert es[n].Publish?;
        assert LogOf(w, es)[i] == MovesOf(v, es[n])[i - |v.log|];
      }
    }
  }

  // ----- The digest the system gate accepts unread -----

  function SystemMove(run: Run, digest: Digest, proof: Proof): Move {
    Move(run, System, SnitchwatchSystem, digest, proof)
  }

  lemma {:induction false} PublishSystem(w: World, p: Policy, digest: Digest, proof: Proof, run: Run)
    requires w.current == Some(run) && run !in w.skipped && w.published == {}
    requires Evidence(p, System, proof.version, proof.kernel) == Some(proof)
    requires SnitchwatchSystem in w.tags && w.tags[SnitchwatchSystem] == BOOTSTRAP_DIGEST
    requires BOOTSTRAP_DIGEST in w.signed
    ensures var v := Next(w, Publish(System, p, digest, proof, true, 1));
            && v.Some? && v.value.tags == w.tags[SnitchwatchSystem := digest] && v.value.signed == w.signed + {digest}
            && v.value.ran == w.ran && v.value.skipped == w.skipped
            && v.value.log == w.log + [SystemMove(run, digest, proof)]
  {
    var channels := Channels(System)[..1];
    assert channels == [SnitchwatchSystem] && channels[..0] == [];
    assert Pointed(w.tags, channels, digest) == Pointed(w.tags, channels[..0], digest)[SnitchwatchSystem := digest];
    assert Moves(run, System, digest, proof, channels) == [SystemMove(run, digest, proof)];
  }

  /** So a channel can go back: republish the bootstrap image with a high record,
      and any record above the floor is accepted next. */
  lemma {:induction false} BootstrapDigestHidesABaseline(p: Policy, high: Proof, low: Proof, digest: Digest)
    requires Evidence(p, System, high.version, high.kernel) == Some(high)
    requires Evidence(p, System, low.version, low.kernel) == Some(low) && !ProofLe(high, low)
    ensures exists w, es :: Initial(w) && Trace(w, es).Some? &&
              LogOf(w, es) == [SystemMove((1, 1), BOOTSTRAP_DIGEST, high), SystemMove((2, 1), digest, low)]
  {
    var w := World(map[SnitchwatchSystem := BOOTSTRAP_DIGEST], {BOOTSTRAP_DIGEST}, map[], {}, {}, None, {}, [], []);
    var a, b := Begin((1, 1), false), Publish(System, p, BOOTSTRAP_DIGEST, high, true, 1);
    var c, d := Begin((2, 1), false), Publish(System, p, digest, low, true, 1);
    var w1 := Next(w, a).value;
    PublishSystem(w1, p, BOOTSTRAP_DIGEST, high, (1, 1));
    var w2 := Next(w1, b).value;
    var w3 := Next(w2, c).value;
    PublishSystem(w3, p, digest, low, (2, 1));
    FourSteps(w, a, b, c, d, w1, w2, w3, Next(w3, d).value);
    assert Next(w3, d).value.log == [SystemMove((1, 1), BOOTSTRAP_DIGEST, high), SystemMove((2, 1), digest, low)];
  }

  lemma {:induction false} FourSteps(w: World, a: Event, b: Event, c: Event, d: Event, w1: World, w2: World, w3: World,
                                     w4: World)
    requires Next(w, a) == Some(w1) && Next(w1, b) == Some(w2) && Next(w2, c) == Some(w3) && Next(w3, d) == Some(w4)
    ensures Trace(w, [a, b, c, d]) == Some(w4)
  {
    assert [a, b, c, d][..3] == [a, b, c] && [a, b, c][..2] == [a, b] && [a, b][..1] == [a] && [a][..0] == [];
    assert Trace(w, [a]) == Some(w1);
    assert Trace(w, [a, b]) == Some(w2);
    assert Trace(w, [a, b, c]) == Some(w3);
  }
}
