/** Reaping what an unprivileged build left behind: `children` and `kill_leftovers`
    (build_files/firewall/snitchwatch-system-unpriv.py; the same loop is
    `kill_leftover_children` in build_files/firewall/snitchwatch-system-stage.py).

    The table holds every descendant of the caller, living or defunct. Between any two
    system calls of the loop the descendants may fork, exit and collect each other. */
module ProcessTree {
  import opened Orders

  type Pid = nat

  /** Descendants with their parent; a defunct process stays listed until its parent collects it. */
  datatype Table = Table(parent: map<Pid, Pid>, defunct: set<Pid>)

  /** What descendants may do on their own.
      A child started with CLONE_PARENT is a sibling of its creator. The children of an exiting
      process go to the caller, or to a living ancestor that made itself a subreaper. */
  datatype Event =
    | Fork(maker: Pid, child: Pid, sibling: bool)
    | Exit(pid: Pid, heir: Pid)
    | Collect(pid: Pid)

  predicate Alive(t: Table, p: Pid) { p in t.parent && p !in t.defunct }

  /** Whether `a` is a proper ancestor of `p`, looking at most `reach` levels up. */
  predicate Above(t: Table, a: Pid, p: Pid, reach: nat)
    decreases reach
  {
    && p in t.parent
    && (t.parent[p] == a || (reach > 0 && Above(t, a, t.parent[p], reach - 1)))
  }

  predicate Enabled(t: Table, me: Pid, e: Event) {
    match e
    case Fork(maker, child, _) => Alive(t, maker) && child !in t.parent && child != me
    case Exit(pid, heir) => Alive(t, pid) && (heir == me || (Alive(t, heir) && Above(t, heir, pid, |t.parent|)))
    case Collect(pid) => pid in t.parent && pid in t.defunct && t.parent[pid] != me
  }

  /** A process ends: it becomes defunct and its children go to `heir`. */
  function Die(t: Table, p: Pid, heir: Pid): Table {
    Table(map q | q in t.parent :: if t.parent[q] == p then heir else t.parent[q], t.defunct + {p})
  }

  function Remove(t: Table, p: Pid): Table {
    Table(t.parent - {p}, t.defunct - {p})
  }

  function Next(t: Table, me: Pid, e: Event): Table {
    if !Enabled(t, me, e) then t
    else
      match e
      case Fork(maker, child, sibling) =>
        Table(t.parent[child := if sibling then t.parent[maker] else maker], t.defunct)
      case Exit(pid, heir) => Die(t, pid, heir)
      case Collect(pid) => Remove(t, pid)
  }

  function Happen(t: Table, me: Pid, events: seq<Event>): Table
    decreases |events|
  {
    if events == [] then t else Happen(Next(t, me, events[0]), me, events[1..])
  }

  // ----- Shape -----

  /** `gen` puts every process below its parent, and every process below the caller. */
  ghost predicate Generations(t: Table, me: Pid, gen: map<Pid, nat>) {
    && me !in t.parent
    && t.parent.Keys <= gen.Keys
    && t.defunct <= t.parent.Keys
    && forall p :: p in t.parent ==>
         && gen[p] >= 1
         && (t.parent[p] == me || (Alive(t, t.parent[p]) && gen[t.parent[p]] < gen[p]))
  }

  /** A forest of descendants rooted at the caller. */
  ghost predicate Forest(t: Table, me: Pid) { exists gen :: Generations(t, me, gen) }

  /** Everybody's generation lies above `low` and at or below `high`. */
  ghost predicate Between(t: Table, gen: map<Pid, nat>, low: nat, high: nat)
    requires t.parent.Keys <= gen.Keys
  {
    forall p :: p in t.parent ==> low < gen[p] <= high
  }

  ghost predicate HeightAtMost(t: Table, me: Pid, h: nat) {
    exists gen :: Generations(t, me, gen) && Between(t, gen, 0, h)
  }

  /** A line of descent of the given length, from a child of the caller downwards. */
  ghost predicate Chain(t: Table, me: Pid, c: seq<Pid>) {
    && (forall i :: 0 <= i < |c| ==> c[i] in t.parent)
    && (c != [] ==> t.parent[c[0]] == me)
    && forall i :: 0 < i < |c| ==> t.parent[c[i]] == c[i - 1]
  }

  ghost predicate HasChain(t: Table, me: Pid, n: nat) { exists c :: |c| == n && Chain(t, me, c) }

  function NextGen(t: Table, me: Pid, gen: map<Pid, nat>, e: Event): map<Pid, nat>
    requires t.parent.Keys <= gen.Keys
  {
    if Enabled(t, me, e) && e.Fork? then gen[e.child := if e.sibling then gen[e.maker] else gen[e.maker] + 1] else gen
  }

  lemma {:induction false} AboveIsOlder(t: Table, me: Pid, gen: map<Pid, nat>, a: Pid, p: Pid, reach: nat)
    requires Generations(t, me, gen) && a in t.parent && Above(t, a, p, reach)
    ensures gen[a] < gen[p]
    decreases reach
  {
    if t.parent[p] != a {
      AboveIsOlder(t, me, gen, a, t.parent[p], reach - 1);
    }
  }

  /** Nothing a descendant does breaks the forest; without forks the same generations keep fitting. */
  lemma {:induction false} NextKeepsForest(t: Table, me: Pid, gen: map<Pid, nat>, e: Event)
    requires Generations(t, me, gen)
    ensures Generations(Next(t, me, e), me, NextGen(t, me, gen, e))
  {
    if Enabled(t, me, e) {
      match e
      case Fork(_, _, _) =>
      case Exit(pid, heir) =>
        if heir != me { AboveIsOlder(t, me, gen, heir, pid, |t.parent|); }
        DieKeepsForest(t, me, gen, pid, heir);
      case Collect(pid) => RemoveKeepsForest(t, me, gen, pid);
    }
  }

  lemma DieKeepsForest(t: Table, me: Pid, gen: map<Pid, nat>, p: Pid, heir: Pid)
    requires Generations(t, me, gen) && p in t.parent && (heir == me || (Alive(t, heir) && gen[heir] < gen[p]))
    ensures Generations(Die(t, p, heir), me, gen)
  {
  }

  lemma RemoveKeepsForest(t: Table, me: Pid, gen: map<Pid, nat>, p: Pid)
    requires Generations(t, me, gen) && p in t.defunct
    ensures Generations(Remove(t, p), me, gen)
  {
  }

  predicate NoFork(events: seq<Event>) { forall e :: e in events ==> !e.Fork? }

  /** What other events leave alone: a child of the caller stays one, defunct or not. */
  ghost predicate ChildrenKept(t: Table, u: Table, me: Pid) {
    forall p :: p in t.parent && t.parent[p] == me ==>
      p in u.parent && u.parent[p] == me && (p in t.defunct ==> p in u.defunct)
  }

  lemma {:induction false} NextKeepsChildren(t: Table, me: Pid, gen: map<Pid, nat>, e: Event)
    requires Generations(t, me, gen)
    ensures ChildrenKept(t, Next(t, me, e), me)
    ensures !e.Fork? ==> Next(t, me, e).parent.Keys <= t.parent.Keys
  {
  }

  lemma {:induction false} KeptTransitive(t: Table, u: Table, v: Table, me: Pid)
    requires ChildrenKept(t, u, me) && ChildrenKept(u, v, me)
    ensures ChildrenKept(t, v, me)
  {
  }

  lemma {:induction false} HappenKeeps(t: Table, me: Pid, gen: map<Pid, nat>, events: seq<Event>)
    returns (after: map<Pid, nat>)
    requires Generations(t, me, gen)
    ensures Generations(Happen(t, me, events), me, after)
    ensures ChildrenKept(t, Happen(t, me, events), me)
    ensures NoFork(events) ==> after == gen && Happen(t, me, events).parent.Keys <= t.parent.Keys
    decreases |events|
  {
    if events == [] {
      after := gen;
    } else {
      var e, rest := events[0], events[1..];
      var u := Next(t, me, e);
      NextKeepsForest(t, me, gen, e);
      NextKeepsChildren(t, me, gen, e);
      after := HappenKeeps(u, me, NextGen(t, me, gen, e), rest);
      KeptTransitive(t, u, Happen(u, me, rest), me);
      if NoFork(events) {
        assert e in events && NoFork(rest);
      }
    }
  }

  /** Nobody under the caller: then nobody anywhere below, since every line of descent starts at a child. */
  lemma {:induction false} NoChildNoDescendant(t: Table, me: Pid, gen: map<Pid, nat>, p: Pid)
    requires Generations(t, me, gen) && forall q :: q in t.parent ==> t.parent[q] != me
    ensures p !in t.parent
    decreases if p in gen then gen[p] else 0
  {
    if p in t.parent {
      NoChildNoDescendant(t, me, gen, t.parent[p]);
    }
  }

  // ----- Height and chains are the same measure -----

  ghost function PathTo(t: Table, me: Pid, gen: map<Pid, nat>, p: Pid): (c: seq<Pid>)
    requires Generations(t, me, gen) && p in t.parent
    ensures c != [] && c[|c| - 1] == p && Chain(t, me, c)
    decreases gen[p]
  {
    if t.parent[p] == me then [p] else PathTo(t, me, gen, t.parent[p]) + [p]
  }

  lemma {:induction false} ChainWithinHeight(t: Table, me: Pid, gen: map<Pid, nat>, c: seq<Pid>)
    requires Generations(t, me, gen) && Chain(t, me, c) && c != []
    ensures |c| <= gen[c[|c| - 1]]
    decreases |c|
  {
    if |c| > 1 {
      ChainWithinHeight(t, me, gen, c[..|c| - 1]);
      assert t.parent[c[|c| - 1]] == c[|c| - 2];
    }
  }

  lemma {:induction false} NoLongChain(t: Table, me: Pid, h: nat, c: seq<Pid>)
    requires HeightAtMost(t, me, h) && Chain(t, me, c)
    ensures |c| <= h
  {
    var gen :| Generations(t, me, gen) && Between(t, gen, 0, h);
    if c != [] {
      ChainWithinHeight(t, me, gen, c);
    }
  }

  lemma {:induction false} LongPaths(t: Table, me: Pid, gen: map<Pid, nat>, h: nat, p: Pid)
    requires Generations(t, me, gen) && p in t.parent
    ensures |PathTo(t, me, gen, p)| > h ==> HasChain(t, me, h + 1)
  {
    var c := PathTo(t, me, gen, p);
    if |c| > h {
      var d := c[..h + 1];
      assert Chain(t, me, d) && |d| == h + 1;
    }
  }

  /** Distance from the caller is itself a way to number the generations. */
  lemma {:induction false} DepthsFit(t: Table, me: Pid, gen: map<Pid, nat>, depth: map<Pid, nat>)
    requires Generations(t, me, gen)
    requires depth.Keys == t.parent.Keys && forall p :: p in t.parent ==> depth[p] == |PathTo(t, me, gen, p)|
    ensures Generations(t, me, depth)
  {
  }

  /** A forest has height at most h exactly when it has no line of descent of h + 1 processes. */
  lemma {:induction false} HeightIsLongestChain(t: Table, me: Pid, h: nat)
    requires Forest(t, me)
    ensures HeightAtMost(t, me, h) <==> !HasChain(t, me, h + 1)
  {
    if HasChain(t, me, h + 1) {
      var c :| |c| == h + 1 && Chain(t, me, c);
      if HeightAtMost(t, me, h) { NoLongChain(t, me, h, c); }
    } else {
      var gen :| Generations(t, me, gen);
      ShortPathsFit(t, me, gen, h);
    }
  }

  lemma {:induction false} ShortPathsFit(t: Table, me: Pid, gen: map<Pid, nat>, h: nat)
    requires Generations(t, me, gen) && !HasChain(t, me, h + 1)
    ensures HeightAtMost(t, me, h)
  {
    var depth := map p | p in t.parent :: |PathTo(t, me, gen, p)|;
    forall p | p in t.parent ensures 0 < depth[p] <= h { LongPaths(t, me, gen, h, p); }
    DepthsFit(t, me, gen, depth);
    assert Between(t, depth, 0, h);
  }

  // ----- One round of the loop, undisturbed -----

  /** Kill and collect all children of the caller: their children move up one level. */
  function Promote(t: Table, me: Pid): Table {
    Table(map p | p in t.parent && t.parent[p] != me ::
            if t.parent[p] in t.parent && t.parent[t.parent[p]] == me then me else t.parent[p],
          set p | p in t.defunct && p in t.parent && t.parent[p] != me)
  }

  /** A round lowers the height by exactly one. */
  lemma {:induction false} RoundLowersByOne(t: Table, me: Pid, n: nat)
    requires Forest(t, me)
    ensures Forest(Promote(t, me), me)
    ensures HasChain(Promote(t, me), me, n + 1) <==> HasChain(t, me, n + 2)
  {
    var gen :| Generations(t, me, gen);
    var u := Promote(t, me);
    assert Generations(u, me, gen);
    if HasChain(t, me, n + 2) {
      var c :| |c| == n + 2 && Chain(t, me, c);
      var d := c[1..];
      assert t.parent[c[1]] == c[0];
      forall i | 0 <= i < |d| ensures d[i] in u.parent && u.parent[d[i]] == if i == 0 then me else d[i - 1] {
        assert d[i] == c[i + 1] && t.parent[c[i + 1]] == c[i];
        if i > 0 { assert t.parent[c[i]] == c[i - 1]; }
      }
      assert Chain(u, me, d);
    }
    if HasChain(u, me, n + 1) {
      var d :| |d| == n + 1 && Chain(u, me, d);
      var c := [t.parent[d[0]]] + d;
      forall i | 0 < i < |c| ensures t.parent[c[i]] == c[i - 1] {
        assert c[i] == d[i - 1];
        if i > 1 { assert u.parent[d[i - 1]] == d[i - 2] && d[i - 2] in u.parent; }
      }
      assert Chain(t, me, c);
    }
  }

  lemma {:induction false} DieKeeps(t: Table, me: Pid, gen: map<Pid, nat>, p: Pid)
    requires Generations(t, me, gen) && p in t.parent
    ensures Generations(Die(t, p, me), me, gen) && ChildrenKept(t, Die(t, p, me), me)
    ensures Die(t, p, me).parent.Keys == t.parent.Keys
  {
  }

  // ----- The loop -----

  class Kernel {
    const me: Pid
    /** The events between the n-th and the next system call of the caller. */
    const env: nat -> seq<Event>
    var table: Table
    var clock: nat
    ghost var gen: map<Pid, nat>

    ghost predicate Valid()
      reads this
    {
      Generations(table, me, gen)
    }

    ghost predicate Forkless() { forall n: nat :: NoFork(env(n)) }

    ghost predicate Undisturbed() { forall n: nat :: env(n) == [] }

    constructor (me: Pid, env: nat -> seq<Event>, table: Table, gen: map<Pid, nat>)
      requires Generations(table, me, gen)
      ensures Valid() && this.me == me && this.env == env && this.table == table && this.gen == gen
    {
      this.me, this.env, this.table, this.clock, this.gen := me, env, table, 0, gen;
    }

    /** Time passes before the next system call. */
    method Tick()
      requires Valid()
      modifies this
      ensures Valid() && ChildrenKept(old(table), table, me)
      ensures Forkless() ==> gen == old(gen) && table.parent.Keys <= old(table).parent.Keys
      ensures Undisturbed() ==> table == old(table)
    {
      ghost var after := HappenKeeps(table, me, gen, env(clock));
      table, clock, gen := Happen(table, me, env(clock)), clock + 1, after;
    }

    /** `children(me)`: one scan of /proc, in any order. */
    method Children() returns (left: seq<Pid>)
      requires Valid()
      modifies this
      ensures Valid()
      ensures Forkless() ==> gen == old(gen) && table.parent.Keys <= old(table).parent.Keys
      ensures Undisturbed() ==> table == old(table)
      ensures forall p :: p in left <==> p in table.parent && table.parent[p] == me
      ensures Distinct(left)
    {
      Tick();
      left := [];
      var entries := table.parent.Keys;
      while entries != {}
        invariant entries <= table.parent.Keys
        invariant forall p :: p in left <==> p in table.parent && p !in entries && table.parent[p] == me
        invariant Distinct(left)
        decreases |entries|
      {
        var p :| p in entries;
        entries := entries - {p};
        if table.parent[p] == me {
          left := left + [p];
        }
      }
    }

    /** SIGKILL. The caller signals nothing but its own children. */
    method Kill(p: Pid)
      requires Valid() && p in table.parent && table.parent[p] == me
      modifies this
      ensures Valid() && ChildrenKept(old(table), table, me) && p in table.defunct
      ensures Forkless() ==> gen == old(gen) && table.parent.Keys <= old(table).parent.Keys
      ensures Undisturbed() ==> table == if p in old(table).defunct then old(table) else Die(old(table), p, me)
    {
      ghost var start := table;
      Tick();
      if p !in table.defunct {
        DieKeeps(table, me, gen, p);
        KeptTransitive(start, table, Die(table, p, me), me);
        table := Die(table, p, me);
      }
    }

    /** waitpid on a killed child. */
    method Wait(p: Pid)
      requires Valid() && p in table.parent && table.parent[p] == me && p in table.defunct
      modifies this
      ensures Valid() && p !in table.parent
      ensures forall q :: q != p && q in old(table).parent && old(table).parent[q] == me ==>
                q in table.parent && table.parent[q] == me && (q in old(table).defunct ==> q in table.defunct)
      ensures Forkless() ==> gen == old(gen) && table.parent.Keys <= old(table).parent.Keys
      ensures Undisturbed() ==> table == Remove(old(table), p)
    {
      Tick();
      table := Remove(table, p);
    }
  }

  /** The state after the first children of a round have been killed. */
  function Killed(t: Table, me: Pid, done: seq<Pid>): Table {
    Table(map q | q in t.parent :: if t.parent[q] in done then me else t.parent[q],
          t.defunct + set p | p in done)
  }

  function Gone(t: Table, done: seq<Pid>): Table {
    Table(t.parent - (set p | p in done), t.defunct - (set p | p in done))
  }

  lemma {:induction false} KilledOneMore(t: Table, me: Pid, done: seq<Pid>, p: Pid, gen: map<Pid, nat>)
    requires Generations(t, me, gen) && p in t.parent && t.parent[p] == me && me !in done && p !in done
    ensures var u := Killed(t, me, done);
            (if p in u.defunct then u else Die(u, p, me)) == Killed(t, me, done + [p])
  {
    var u, v := Killed(t, me, done), Killed(t, me, done + [p]);
    assert v.defunct == u.defunct + {p};
    forall q | q in t.parent && t.parent[q] == p ensures p !in t.defunct {}
    assert (if p in u.defunct then u else Die(u, p, me)).parent == v.parent;
  }

  lemma {:induction false} RoundIsPromote(t: Table, me: Pid, left: seq<Pid>)
    requires forall p :: p in left <==> p in t.parent && t.parent[p] == me
    requires t.defunct <= t.parent.Keys && me !in t.parent
    ensures Gone(Killed(t, me, left), left) == Promote(t, me)
  {
    var u, v := Gone(Killed(t, me, left), left), Promote(t, me);
    assert u.parent == v.parent;
    assert u.defunct == v.defunct;
  }

  ghost predicate AllChildren(t: Table, me: Pid, pids: seq<Pid>) {
    forall p :: p in pids ==> p in t.parent && t.parent[p] == me
  }

  method KillAll(k: Kernel, left: seq<Pid>)
    requires k.Valid() && AllChildren(k.table, k.me, left) && Distinct(left)
    modifies k
    ensures k.Valid() && AllChildren(k.table, k.me, left)
    ensures forall p :: p in left ==> p in k.table.defunct
    ensures k.Forkless() ==> k.gen == old(k.gen) && k.table.parent.Keys <= old(k.table).parent.Keys
    ensures k.Undisturbed() ==> k.table == Killed(old(k.table), k.me, left)
  {
    ghost var t, gen := k.table, k.gen;
    assert k.table == Killed(t, k.me, []);
    for i := 0 to |left|
      invariant k.Valid() && AllChildren(k.table, k.me, left)
      invariant forall p :: p in left[..i] ==> p in k.table.defunct
      invariant k.Forkless() ==> k.gen == gen && k.table.parent.Keys <= t.parent.Keys
      invariant k.Undisturbed() ==> k.table == Killed(t, k.me, left[..i])
    {
      assert left[..i + 1] == left[..i] + [left[i]];
      assert left[i] in left && left[i] !in left[..i];
      KilledOneMore(t, k.me, left[..i], left[i], gen);
      k.Kill(left[i]);
    }
    assert left[..|left|] == left;
  }

  method WaitAll(k: Kernel, left: seq<Pid>)
    requires k.Valid() && AllChildren(k.table, k.me, left) && Distinct(left)
    requires forall p :: p in left ==> p in k.table.defunct
    modifies k
    ensures k.Valid()
    ensures k.Forkless()
        ==> k.gen == old(k.gen) && k.table.parent.Keys <= old(k.table).parent.Keys - (set p | p in left)
    ensures k.Undisturbed() ==> k.table == Gone(old(k.table), left)
  {
    ghost var t, gen := k.table, k.gen;
    assert k.table == Gone(t, []);
    for i := 0 to |left|
      invariant k.Valid() && AllChildren(k.table, k.me, left[i..])
      invariant forall p :: p in left[i..] ==> p in k.table.defunct
      invariant k.Forkless() ==> k.gen == gen && k.table.parent.Keys <= t.parent.Keys - (set p | p in left[..i])
      invariant k.Undisturbed() ==> k.table == Gone(t, left[..i])
    {
      assert left[i..] == [left[i]] + left[i + 1..];
      assert left[..i + 1] == left[..i] + [left[i]];
      assert left[i] !in left[i + 1..];
      GoneOneMore(t, left[..i], left[i]);
      k.Wait(left[i]);
    }
    assert left[..|left|] == left;
  }

  lemma {:induction false} GoneOneMore(t: Table, done: seq<Pid>, p: Pid)
    ensures Remove(Gone(t, done), p) == Gone(t, done + [p])
  {
    assert (set q | q in done + [p]) == (set q | q in done) + {p};
    assert Remove(Gone(t, done), p).parent == Gone(t, done + [p]).parent;
  }

  /** One pass of the loop body. */
  method Round(k: Kernel, left: seq<Pid>)
    requires k.Valid() && Distinct(left)
    requires forall p :: p in left <==> p in k.table.parent && k.table.parent[p] == k.me
    modifies k
    ensures k.Valid()
    ensures k.Forkless()
        ==> k.gen == old(k.gen) && k.table.parent.Keys <= old(k.table).parent.Keys - (set p | p in left)
    ensures k.Undisturbed() ==> k.table == Promote(old(k.table), k.me)
  {
    RoundIsPromote(k.table, k.me, left);
    KillAll(k, left);
    WaitAll(k, left);
  }

  lemma QuietIsForkless(k: Kernel)
    requires k.Undisturbed()
    ensures k.Forkless()
  {
    forall n: nat ensures NoFork(k.env(n)) { assert k.env(n) == []; }
  }

  lemma NobodyLeft(t: Table, me: Pid, gen: map<Pid, nat>, n: nat)
    requires Generations(t, me, gen) && n > 0 && forall q :: q in t.parent ==> t.parent[q] != me
    ensures t.parent == map[] && !HasChain(t, me, n)
  {
    if HasChain(t, me, n) { ChainHasStart(t, me, n); }
    forall p ensures p !in t.parent { NoChildNoDescendant(t, me, gen, p); }
  }

  lemma ChainHasStart(t: Table, me: Pid, n: nat)
    requires HasChain(t, me, n) && n > 0
    ensures t.parent != map[]
  {
    var c :| |c| == n && Chain(t, me, c);
    assert c[0] in t.parent;
  }

  /** Taking away all children leaves only later generations. */
  lemma RoundRaises(t: Table, u: Table, me: Pid, gen: map<Pid, nat>, left: seq<Pid>, low: nat, high: nat)
    requires Generations(t, me, gen) && Between(t, gen, low, high) && left != [] && left[0] in t.parent
    requires forall p :: p in left <==> p in t.parent && t.parent[p] == me
    requires u.parent.Keys <= t.parent.Keys - (set p | p in left)
    ensures low < high && u.parent.Keys <= gen.Keys && Between(u, gen, low + 1, high)
  {
    forall p | p in u.parent ensures low + 1 < gen[p] <= high { assert t.parent[p] in t.parent; }
  }

  lemma RoundShortens(t: Table, me: Pid, gen: map<Pid, nat>, n: nat)
    requires Generations(t, me, gen) && HasChain(t, me, n + 1)
    ensures HasChain(Promote(t, me), me, n)
  {
    assert Forest(t, me);
    if n > 0 {
      RoundLowersByOne(t, me, n - 1);
    } else {
      assert Chain(Promote(t, me), me, []);
    }
  }

  /** `kill_leftovers`: true when it returns, false when it refuses. */
  method KillLeftovers(k: Kernel, rounds: nat) returns (ok: bool)
    requires k.Valid()
    modifies k
    ensures k.Valid()
    // Containment: whatever the descendants did meanwhile, a normal return leaves none, at any depth.
    ensures ok ==> k.table.parent == map[]
    // Progress: descendants that only exit cannot outlast a forest of height below the bound.
    ensures k.Forkless() && rounds > 0 && HeightAtMost(old(k.table), k.me, rounds - 1) ==> ok
    // Exactness: an undisturbed forest is cleared exactly when its height is below the bound.
    ensures k.Undisturbed() && rounds > 0 ==> (ok <==> HeightAtMost(old(k.table), k.me, rounds - 1))
  {
    ghost var start, me := k.table, k.me;
    ghost var low := rounds > 0 && HeightAtMost(start, me, rounds - 1);
    ghost var exact := rounds > 0 && k.Undisturbed();
    if exact { QuietIsForkless(k); }
    assert HasChain(start, me, rounds) || low || rounds == 0 by {
      assert Forest(start, me);
      if rounds > 0 { HeightIsLongestChain(start, me, rounds - 1); }
    }
    if low {
      ghost var gen :| Generations(start, me, gen) && Between(start, gen, 0, rounds - 1);
      k.gen := gen;
    }
    for i := 0 to rounds
      invariant k.Valid()
      invariant k.Forkless() && low ==> i < rounds && Between(k.table, k.gen, i, rounds - 1)
      invariant exact && !low ==> HasChain(k.table, me, rounds - i)
    {
      var left := k.Children();
      if left == [] {
        NobodyLeft(k.table, me, k.gen, rounds - i);
        return true;
      }
      assert left[0] in left;
      ghost var scanned, gen := k.table, k.gen;
      Round(k, left);
      if k.Forkless() && low { RoundRaises(scanned, k.table, me, gen, left, i, rounds - 1); }
      if exact && !low { RoundShortens(scanned, me, gen, rounds - i - 1); }
    }
    ok := false;
  }
}
