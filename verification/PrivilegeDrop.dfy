/** The privilege drop before third-party build code runs: `drop_privileges` and `status_problems`
    (build_files/firewall/snitchwatch-system-unpriv.py), against the credential rules of Linux
    (capabilities(7), prctl(2), setresuid(2), setgroups(2), capset(2)).

    A 16-digit capability word of /proc/self/status is modelled as the set of its bits. */
module PrivilegeDrop {
  import opened Options

  type Cap = nat

  const CAP_SETGID: Cap := 6
  const CAP_SETUID: Cap := 7
  const CAP_SETPCAP: Cap := 8
  const WORD: nat := 64

  datatype Ids = Ids(actual: nat, effective: nat, saved: nat, fs: nat) {
    predicate Has(id: nat) { id == actual || id == effective || id == saved }
  }

  function Same(id: nat): Ids { Ids(id, id, id, id) }

  datatype Creds = Creds(
    uid: Ids, gid: Ids, groups: seq<nat>,
    permitted: set<Cap>, effective: set<Cap>, inheritable: set<Cap>, bounding: set<Cap>, ambient: set<Cap>,
    noNewPrivs: bool, keepCaps: bool, noSetuidFixup: bool)

  datatype Call =
    | DropBounding(cap: Cap)
    | ClearAmbient
    | ClearInheritable
    | SetGroups(groups: seq<nat>)
    | SetResGid(gid: nat)
    | SetResUid(uid: nat)
    | SetNoNewPrivs

  datatype Outcome = Done(creds: Creds) | Denied

  type Kernel = (Creds, Call) -> Outcome

  /** What setresuid does to the capability sets (`cap_emulate_setxuid`). */
  function AfterUidChange(c: Creds, uid: nat): Creds {
    var d := c.(uid := Same(uid));
    if c.noSetuidFixup then d
    else
      var leftRoot := c.uid.Has(0) && uid != 0;
      var e := if leftRoot then d.(ambient := {}) else d;
      var f := if leftRoot && !c.keepCaps then e.(permitted := {}, effective := {}) else e;
      if c.uid.effective == 0 && uid != 0 then f.(effective := {})
      else if c.uid.effective != 0 && uid == 0 then f.(effective := f.permitted)
      else f
  }

  /** One system call under Linux. */
  function Linux(lastCap: Cap): Kernel {
    (c: Creds, call: Call) =>
      match call
      case DropBounding(cap) =>
        if CAP_SETPCAP in c.effective && cap <= lastCap then Done(c.(bounding := c.bounding - {cap})) else Denied
      case ClearAmbient => Done(c.(ambient := {}))
      case ClearInheritable => Done(c.(inheritable := {}, ambient := {}))
      case SetGroups(groups) => if CAP_SETGID in c.effective then Done(c.(groups := groups)) else Denied
      case SetResGid(gid) =>
        if CAP_SETGID in c.effective || c.gid.Has(gid) then Done(c.(gid := Same(gid))) else Denied
      case SetResUid(uid) =>
        if CAP_SETUID in c.effective || c.uid.Has(uid) then Done(AfterUidChange(c, uid)) else Denied
      case SetNoNewPrivs => Done(c.(noNewPrivs := true))
  }

  // ----- /proc/self/status -----

  /** The parsed status fields; a field may be missing. */
  datatype Fields = Fields(
    uid: Option<Ids>, gid: Option<Ids>, groups: Option<seq<nat>>,
    capInh: Option<set<Cap>>, capPrm: Option<set<Cap>>, capEff: Option<set<Cap>>,
    capBnd: Option<set<Cap>>, capAmb: Option<set<Cap>>, noNewPrivs: Option<bool>)

  function StatusOf(c: Creds): Fields {
    Fields(Some(c.uid), Some(c.gid), Some(c.groups), Some(c.inheritable), Some(c.permitted), Some(c.effective),
           Some(c.bounding), Some(c.ambient), Some(c.noNewPrivs))
  }

  datatype FieldName = Uid | Gid | Groups | NoNewPrivs | CapInh | CapPrm | CapEff | CapBnd | CapAmb

  /** The fields that are not exactly the dropped state. */
  function StatusProblems(f: Fields, uid: nat, gid: nat): seq<FieldName> {
    (if f.uid != Some(Same(uid)) then [Uid] else [])
    + (if f.gid != Some(Same(gid)) then [Gid] else [])
    + (if f.groups != Some([]) then [Groups] else [])
    + (if f.noNewPrivs != Some(true) then [NoNewPrivs] else [])
    + (if f.capInh != Some({}) then [CapInh] else [])
    + (if f.capPrm != Some({}) then [CapPrm] else [])
    + (if f.capEff != Some({}) then [CapEff] else [])
    + (if f.capBnd != Some({}) then [CapBnd] else [])
    + (if f.capAmb != Some({}) then [CapAmb] else [])
  }

  /** Nothing left: no identity, group or capability but the build's, and none to be gained by exec. */
  ghost predicate Dropped(c: Creds, uid: nat, gid: nat) {
    && c.uid == Same(uid) && c.gid == Same(gid) && c.groups == []
    && c.permitted == {} && c.effective == {} && c.inheritable == {} && c.bounding == {} && c.ambient == {}
    && c.noNewPrivs
  }

  // ----- The sequence of calls -----

  /** Bounding-set drops for the capabilities below `cap` that are set. */
  function Drops(bounding: set<Cap>, cap: nat): seq<Call> {
    if cap == 0 then []
    else Drops(bounding, cap - 1) + if cap - 1 in bounding then [DropBounding(cap - 1)] else []
  }

  function Rest(uid: nat, gid: nat): seq<Call> {
    [ClearAmbient, ClearInheritable, SetGroups([]), SetResGid(gid), SetResUid(uid), SetNoNewPrivs]
  }

  /** Issue calls in order, stopping at the first denial. */
  function Issue(kernel: Kernel, c: Creds, calls: seq<Call>): Outcome
    decreases |calls|
  {
    if calls == [] then Done(c)
    else
      match kernel(c, calls[0])
      case Denied => Denied
      case Done(d) => Issue(kernel, d, calls[1..])
  }

  function BoundingRead(f: Fields): set<Cap> {
    match f.capBnd
    case Some(word) => word
    case None => FullWord(WORD)
  }

  function FullWord(n: nat): set<Cap> { if n == 0 then {} else FullWord(n - 1) + {n - 1} }

  lemma {:induction false} IssueConcat(kernel: Kernel, c: Creds, a: seq<Call>, b: seq<Call>)
    ensures Issue(kernel, c, a + b) ==
      match Issue(kernel, c, a) { case Denied => Denied case Done(d) => Issue(kernel, d, b) }
    decreases |a|
  {
    if a == [] {
      assert a + b == b;
    } else {
      assert (a + b)[0] == a[0] && (a + b)[1..] == a[1..] + b;
      match kernel(c, a[0]) {
        case Denied =>
        case Done(d) => IssueConcat(kernel, d, a[1..], b);
      }
    }
  }

  /** What remains of the calls after the bounding loop, once the first `i` are done. */
  function Remaining(uid: nat, gid: nat, i: nat): seq<Call>
    requires i <= 6
  {
    Rest(uid, gid)[i..]
  }

  lemma {:induction false} IssueNext(kernel: Kernel, c: Creds, uid: nat, gid: nat, i: nat)
    requires i < 6
    ensures Issue(kernel, c, Remaining(uid, gid, i)) ==
      match kernel(c, Rest(uid, gid)[i])
      case Denied => Denied
      case Done(d) => Issue(kernel, d, Remaining(uid, gid, i + 1))
    ensures Issue(kernel, c, Remaining(uid, gid, 6)) == Done(c)
  {
    assert Rest(uid, gid)[i..][1..] == Rest(uid, gid)[i + 1..];
  }

  /** `drop_privileges`: returns the final credentials when the exec may go ahead. Any kernel, any status file. */
  method DropPrivileges(start: Creds, uid: nat, gid: nat, lastCap: Cap, kernel: Kernel, status: Creds -> Fields)
    returns (result: Outcome)
    ensures result ==
      match Issue(kernel, start, Drops(BoundingRead(status(start)), lastCap + 1) + Rest(uid, gid))
      case Denied => Denied
      case Done(d) => if StatusProblems(status(d), uid, gid) == [] then Done(d) else Denied
  {
    var c := start;
    var bounding := BoundingRead(status(c));
    ghost var calls := Drops(bounding, lastCap + 1) + Rest(uid, gid);
    for cap := 0 to lastCap + 1
      invariant Issue(kernel, start, Drops(bounding, cap)) == Done(c)
    {
      assert Drops(bounding, cap) + [] == Drops(bounding, cap);
      if cap in bounding {
        IssueConcat(kernel, start, Drops(bounding, cap), [DropBounding(cap)]);
        var r := kernel(c, DropBounding(cap));
        if r.Denied? {
          DeniedEarly(kernel, start, bounding, cap + 1, lastCap + 1, Rest(uid, gid));
          return Denied;
        }
        c := r.creds;
      }
    }
    IssueConcat(kernel, start, Drops(bounding, lastCap + 1), Rest(uid, gid));
    assert Remaining(uid, gid, 0) == Rest(uid, gid);
    IssueNext(kernel, c, uid, gid, 0);
    var r := kernel(c, ClearAmbient);
    if r.Denied? { return Denied; }
    IssueNext(kernel, r.creds, uid, gid, 1);
    r := kernel(r.creds, ClearInheritable);
    if r.Denied? { return Denied; }
    IssueNext(kernel, r.creds, uid, gid, 2);
    r := kernel(r.creds, SetGroups([]));
    if r.Denied? { return Denied; }
    IssueNext(kernel, r.creds, uid, gid, 3);
    r := kernel(r.creds, SetResGid(gid));
    if r.Denied? { return Denied; }
    IssueNext(kernel, r.creds, uid, gid, 4);
    r := kernel(r.creds, SetResUid(uid));
    if r.Denied? { return Denied; }
    IssueNext(kernel, r.creds, uid, gid, 5);
    r := kernel(r.creds, SetNoNewPrivs);
    if r.Denied? { return Denied; }
    IssueNext(kernel, r.creds, uid, gid, 5);
    if StatusProblems(status(r.creds), uid, gid) != [] { return Denied; }
    return r;
  }

  lemma {:induction false} DeniedEarly(kernel: Kernel, c: Creds, bounding: set<Cap>, done: nat, all: nat,
                                       rest: seq<Call>)
    requires done <= all && Issue(kernel, c, Drops(bounding, done)) == Denied
    ensures Issue(kernel, c, Drops(bounding, all) + rest) == Denied
    decreases all - done
  {
    if done == all {
      IssueConcat(kernel, c, Drops(bounding, all), rest);
    } else {
      IssueConcat(kernel, c, Drops(bounding, done), if done in bounding then [DropBounding(done)] else []);
      DeniedEarly(kernel, c, bounding, done + 1, all, rest);
    }
  }

  // ----- What the drop achieves -----

  /** Whatever the calls really did, a normal return with a truthful status file means everything is dropped. */
  lemma NormalReturnIsDropped(c: Creds, uid: nat, gid: nat)
    ensures StatusProblems(StatusOf(c), uid, gid) == [] <==> Dropped(c, uid, gid)
  {
  }

  /** The loop clears exactly the bounding bits it was told about, and nothing else. */
  lemma {:induction false} DropsClearBounding(c: Creds, lastCap: Cap, bounding: set<Cap>, cap: nat)
    requires cap <= lastCap + 1
    ensures Issue(Linux(lastCap), c, Drops(bounding, cap)) ==
      if CAP_SETPCAP in c.effective || (forall b :: b in bounding ==> b >= cap)
      then Done(c.(bounding := set b | b in c.bounding && (b >= cap || b !in bounding)))
      else Denied
  {
    var kernel := Linux(lastCap);
    if cap == 0 {
      assert c.bounding == set b | b in c.bounding && (b >= 0 || b !in bounding);
    } else {
      DropsClearBounding(c, lastCap, bounding, cap - 1);
      var last := if cap - 1 in bounding then [DropBounding(cap - 1)] else [];
      IssueConcat(kernel, c, Drops(bounding, cap - 1), last);
      if cap - 1 in bounding {
        var before := set b | b in c.bounding && (b >= cap - 1 || b !in bounding);
        var after := set b | b in c.bounding && (b >= cap || b !in bounding);
        assert before - {cap - 1} == after;
      } else {
        assert (set b | b in c.bounding && (b >= cap - 1 || b !in bounding))
            == set b | b in c.bounding && (b >= cap || b !in bounding);
      }
    }
  }

  /** The credentials after the calls that follow the bounding loop. */
  lemma {:induction false} RestUnderLinux(c: Creds, uid: nat, gid: nat, lastCap: Cap)
    ensures Issue(Linux(lastCap), c, Rest(uid, gid)) ==
      if CAP_SETGID in c.effective && (CAP_SETUID in c.effective || c.uid.Has(uid))
      then Done(AfterUidChange(c.(ambient := {}, inheritable := {}, groups := [], gid := Same(gid)),
                               uid).(noNewPrivs := true))
      else Denied
  {
    var kernel := Linux(lastCap);
    assert Remaining(uid, gid, 0) == Rest(uid, gid);
    IssueNext(kernel, c, uid, gid, 0);
    var c1 := c.(ambient := {});
    IssueNext(kernel, c1, uid, gid, 1);
    var c2 := c1.(inheritable := {});
    IssueNext(kernel, c2, uid, gid, 2);
    var c3 := c2.(groups := []);
    IssueNext(kernel, c3, uid, gid, 3);
    var c4 := c3.(gid := Same(gid));
    IssueNext(kernel, c4, uid, gid, 4);
    IssueNext(kernel, AfterUidChange(c4, uid), uid, gid, 5);
    IssueNext(kernel, AfterUidChange(c4, uid).(noNewPrivs := true), uid, gid, 5);
  }

  /** What the caller must hold for the drop to go through. */
  ghost predicate Ready(c: Creds, uid: nat, lastCap: Cap) {
    && CAP_SETGID in c.effective
    && (CAP_SETUID in c.effective || c.uid.Has(uid))
    && (CAP_SETPCAP in c.effective || c.bounding == {})
    && (forall b :: b in c.bounding ==> b <= lastCap)
    && c.uid.Has(0) && !c.keepCaps && !c.noSetuidFixup
  }

  function Drop(c: Creds, uid: nat, gid: nat, lastCap: Cap): Outcome {
    Issue(Linux(lastCap), c, Drops(c.bounding, lastCap + 1) + Rest(uid, gid))
  }

  /** Under Linux the sequence, in the order written, ends fully dropped if and only if the caller was ready. */
  lemma {:induction false} DropSucceedsExactlyWhenReady(c: Creds, uid: nat, gid: nat, lastCap: Cap)
    requires uid != 0 && c.effective <= c.permitted
    ensures (Drop(c, uid, gid, lastCap).Done? && Dropped(Drop(c, uid, gid, lastCap).creds, uid, gid))
        <==> Ready(c, uid, lastCap)
  {
    DropsClearBounding(c, lastCap, c.bounding, lastCap + 1);
    IssueConcat(Linux(lastCap), c, Drops(c.bounding, lastCap + 1), Rest(uid, gid));
    var kept := set b | b in c.bounding && (b >= lastCap + 1 || b !in c.bounding);
    RestUnderLinux(c.(bounding := kept), uid, gid, lastCap);
    if forall b :: b in c.bounding ==> b >= lastCap + 1 {
      if c.bounding != {} { var b :| b in c.bounding; assert b in kept; }
    }
    assert kept == {} <==> forall b :: b in c.bounding ==> b <= lastCap by {
      if kept == {} {
        forall b | b in c.bounding ensures b <= lastCap { assert b !in kept; }
      }
    }
  }

  /** The usual starting point: root with the three capabilities, and a bounding set the kernel knows. */
  lemma RootIsReady(c: Creds, uid: nat, lastCap: Cap)
    requires c.uid.Has(0) && !c.keepCaps && !c.noSetuidFixup
    requires {CAP_SETPCAP, CAP_SETGID, CAP_SETUID} <= c.effective && forall b :: b in c.bounding ==> b <= lastCap
    ensures Ready(c, uid, lastCap)
  {
  }

  /** The order matters: giving up the uid before the groups would leave no right to drop the groups. */
  lemma {:induction false} UidBeforeGroupsFails(c: Creds, uid: nat, lastCap: Cap, rest: seq<Call>)
    requires Ready(c, uid, lastCap) && uid != 0
    ensures Issue(Linux(lastCap), c, [SetResUid(uid), SetGroups([])] + rest) == Denied
  {
    var calls := [SetResUid(uid), SetGroups([])] + rest;
    assert calls[1..] == [SetGroups([])] + rest;
  }
}
