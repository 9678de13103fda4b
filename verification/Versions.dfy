/** Base and kernel versions: parsed as tuples of numbers and compared as tuples
    (ci/base-refresh.py, `base_version`, `kernel_version`). */
module Versions {
  import opened Options
  import opened Orders

  predicate IsDigit(c: char) { '0' <= c <= '9' }

  predicate AllDigits(s: string) { forall i :: 0 <= i < |s| ==> IsDigit(s[i]) }

  /** Python's `int` on a run of digits. */
  function Number(s: string): nat
    requires AllDigits(s)
  {
    if s == "" then 0 else 10 * Number(s[..|s| - 1]) + (s[|s| - 1] as int - '0' as int)
  }

  /** How many digits `s` starts with. */
  function DigitRun(s: string): (n: nat)
    ensures n <= |s| && AllDigits(s[..n]) && (n < |s| ==> !IsDigit(s[n]))
  {
    if s == "" || !IsDigit(s[0]) then 0
    else
      assert forall i :: 0 <= i < DigitRun(s[1..]) ==> s[1..][..DigitRun(s[1..])][i] == s[i + 1];
      1 + DigitRun(s[1..])
  }

  /** Numbers that are each followed by their separator, to the end of the text. */
  function Numbers(s: string, separators: seq<string>): Option<seq<nat>> {
    if separators == [] then (if s == "" then Some([]) else None)
    else
      var n := DigitRun(s);
      var sep := separators[0];
      if n == 0 || !(sep <= s[n..]) then None
      else
        match Numbers(s[n..][|sep|..], separators[1..])
        case None => None
        case Some(rest) => Some([Number(s[..n])] + rest)
  }

  const KERNEL: seq<string> := [".", ".", "-ogc", ".", ".fc", ""]

  /** `MAJOR.MINOR.PATCH-ogcN.M.fcF` */
  function KernelVersion(s: string): Option<seq<nat>> { Numbers(s, KERNEL) }

  /** `NN.NNNNNNNN` */
  predicate BaseShape(s: string) { |s| == 11 && AllDigits(s[..2]) && s[2] == '.' && AllDigits(s[3..]) }

  function BaseVersion(s: string): Option<seq<nat>> {
    if BaseShape(s) then Some([Number(s[..2]), Number(s[3..])]) else None
  }

  // ----- Order of tuples -----

  predicate NatLt(a: nat, b: nat) { a < b }

  /** Python's `a <= b` on tuples of numbers. */
  predicate Le(a: seq<nat>, b: seq<nat>) { !LexLt(NatLt, b, a) }

  lemma {:induction false} LeOrders(a: seq<nat>, b: seq<nat>, c: seq<nat>)
    ensures Le(a, a)
    ensures Le(a, b) && Le(b, c) ==> Le(a, c)
    ensures Le(a, b) || Le(b, a)
    ensures Le(a, b) && Le(b, a) ==> a == b
  {
    assert StrictTotal(NatLt);
    LexTrichotomy(NatLt, a, a);
    LexTrichotomy(NatLt, a, b);
    LexTrichotomy(NatLt, b, c);
    if LexLt(NatLt, a, b) && LexLt(NatLt, b, a) { LexTransitive(NatLt, a, b, a); }
    if LexLt(NatLt, c, a) && !LexLt(NatLt, b, a) && !LexLt(NatLt, c, b) {
      if LexLt(NatLt, a, b) { LexTransitive(NatLt, c, a, b); }
      assert a == b;
    }
  }

  // ----- What the parsers read -----

  /** Decimal spelling without leading zeros. */
  function Spell(n: nat): (s: string)
    ensures s != "" && AllDigits(s) && Number(s) == n
  {
    if n < 10 then [('0' as int + n) as char]
    else
      var s := Spell(n / 10) + [('0' as int + n % 10) as char];
      assert s[..|s| - 1] == Spell(n / 10);
      s
  }

  function SpellAll(ns: seq<nat>, separators: seq<string>): string
    requires |ns| == |separators|
  {
    if ns == [] then "" else Spell(ns[0]) + separators[0] + SpellAll(ns[1..], separators[1..])
  }

  lemma {:induction false} RunOfDigits(a: string, b: string)
    requires AllDigits(a) && (b == "" || !IsDigit(b[0]))
    ensures DigitRun(a + b) == |a|
  {
    if a == "" {
      assert a + b == b;
    } else {
      RunOfDigits(a[1..], b);
      assert (a + b)[1..] == a[1..] + b;
    }
  }

  ghost predicate Separating(separators: seq<string>) {
    && (forall i :: 0 <= i < |separators| && separators[i] != "" ==> !IsDigit(separators[i][0]))
    && forall i :: 0 <= i < |separators| - 1 ==> separators[i] != ""
  }

  lemma SeparatingTail(separators: seq<string>)
    requires Separating(separators) && separators != []
    ensures Separating(separators[1..])
  {
    forall i | 0 <= i < |separators| - 1 && separators[1..][i] != "" ensures !IsDigit(separators[1..][i][0]) {
      assert separators[1..][i] == separators[i + 1];
    }
  }

  lemma {:induction false} NumberThenRest(a: string, sep: string, rest: string, separators: seq<string>, ns: seq<nat>)
    requires a != "" && AllDigits(a) && (sep + rest == "" || !IsDigit((sep + rest)[0]))
    requires separators != [] && separators[0] == sep && Numbers(rest, separators[1..]) == Some(ns)
    ensures Numbers(a + (sep + rest), separators) == Some([Number(a)] + ns)
  {
    var s := a + (sep + rest);
    RunOfDigits(a, sep + rest);
    assert s[..|a|] == a && s[|a|..] == sep + rest && (sep + rest)[|sep|..] == rest;
  }

  /** Printing numbers with their separators and parsing them back. */
  lemma {:induction false} SpelledNumbersRead(ns: seq<nat>, separators: seq<string>)
    requires |ns| == |separators| && Separating(separators)
    ensures Numbers(SpellAll(ns, separators), separators) == Some(ns)
    decreases |ns|
  {
    if ns != [] {
      SeparatingTail(separators);
      SeparatingHead(separators);
      SpelledNumbersRead(ns[1..], separators[1..]);
      SpelledFirst(ns, separators, SpellAll(ns[1..], separators[1..]));
    }
  }

  lemma SeparatingHead(separators: seq<string>)
    requires Separating(separators) && separators != []
    ensures separators[0] == "" || !IsDigit(separators[0][0])
    ensures |separators| > 1 ==> separators[0] != ""
  {
  }

  lemma {:induction false} SpelledFirst(ns: seq<nat>, separators: seq<string>, rest: string)
    requires |ns| == |separators| > 0 && rest == SpellAll(ns[1..], separators[1..])
    requires (separators[0] == "" || !IsDigit(separators[0][0])) && (|separators| > 1 ==> separators[0] != "")
    requires Numbers(rest, separators[1..]) == Some(ns[1..])
    ensures Numbers(SpellAll(ns, separators), separators) == Some(ns)
  {
    EndOrSeparator(ns[1..], separators[1..], separators[0]);
    var a := Spell(ns[0]);
    NumberThenRest(a, separators[0], rest, separators, ns[1..]);
    SpellUnfolded(ns, separators, rest);
    assert [Number(a)] + ns[1..] == ns;
  }

  lemma EndOrSeparator(ns: seq<nat>, separators: seq<string>, sep: string)
    requires |ns| == |separators| && (sep == "" ==> ns == []) && (sep != "" ==> !IsDigit(sep[0]))
    ensures var s := sep + SpellAll(ns, separators); s == "" || !IsDigit(s[0])
  {
    if sep != "" { assert (sep + SpellAll(ns, separators))[0] == sep[0]; }
  }

  lemma {:induction false} SpellUnfolded(ns: seq<nat>, separators: seq<string>, rest: string)
    requires |ns| == |separators| > 0 && rest == SpellAll(ns[1..], separators[1..])
    ensures SpellAll(ns, separators) == Spell(ns[0]) + (separators[0] + rest)
  {
  }

  /** Every kernel tuple is read back from its spelling. */
  lemma {:induction false} KernelRoundTrip(ns: seq<nat>)
    requires |ns| == 6
    ensures KernelVersion(SpellAll(ns, KERNEL)) == Some(ns)
  {
    SpelledNumbersRead(ns, KERNEL);
  }

  lemma {:induction false} NumberBound(a: string)
    requires AllDigits(a)
    ensures Number(a) < Power(|a|)
  {
    if a != "" { NumberBound(a[..|a| - 1]); }
  }

  function Power(n: nat): nat { if n == 0 then 1 else 10 * Power(n - 1) }

  lemma {:induction false} NumberHead(a: string)
    requires AllDigits(a) && a != ""
    ensures AllDigits(a[1..]) && Number(a) == (a[0] as int - '0' as int) * Power(|a| - 1) + Number(a[1..])
  {
    if |a| == 1 {
      assert a[1..] == "" && a[..0] == "";
    } else {
      var init := a[..|a| - 1];
      NumberHead(init);
      assert a[1..][..|a| - 2] == init[1..];
      HeadStep(a[0] as int - '0' as int, Power(|a| - 2), Number(init[1..]), a[|a| - 1] as int - '0' as int);
    }
  }

  lemma HeadStep(d: int, p: int, r: int, e: int)
    ensures 10 * (d * p + r) + e == d * (10 * p) + (10 * r + e)
  {
  }

  lemma BelowDigit(d: int, e: int, p: int, r: int, s: int)
    requires d < e && 0 <= r < p && 0 <= s
    ensures d * p + r < e * p + s
  {
    assert d * p + p == (d + 1) * p;
    assert (d + 1) * p <= e * p;
  }

  /** Digit strings of one length are ordered like their numbers. */
  lemma {:induction false} DigitsOrder(a: string, b: string)
    requires AllDigits(a) && AllDigits(b) && |a| == |b|
    ensures LexLt(CharLt, a, b) <==> Number(a) < Number(b)
  {
    if a != "" {
      NumberHead(a);
      NumberHead(b);
      DigitsOrder(a[1..], b[1..]);
      NumberBound(a[1..]);
      NumberBound(b[1..]);
      var d, e, p := a[0] as int - '0' as int, b[0] as int - '0' as int, Power(|a| - 1);
      if d < e {
        BelowDigit(d, e, p, Number(a[1..]), Number(b[1..]));
      } else if e < d {
        BelowDigit(e, d, p, Number(b[1..]), Number(a[1..]));
      }
    }
  }

  lemma {:induction false} LexConcat<T>(lt: (T, T) -> bool, p: seq<T>, x: seq<T>, q: seq<T>, y: seq<T>)
    requires |p| == |q|
    ensures LexLt(lt, p + x, q + y) <==> LexLt(lt, p, q) || (p == q && LexLt(lt, x, y))
    decreases |p|
  {
    if p == [] {
      assert p + x == x && q + y == y;
    } else {
      LexConcat(lt, p[1..], x, q[1..], y);
      assert (p + x)[1..] == p[1..] + x && (q + y)[1..] == q[1..] + y;
      assert p == [p[0]] + p[1..] && q == [q[0]] + q[1..];
    }
  }

  lemma {:induction false} SameNumber(a: string, b: string)
    requires AllDigits(a) && AllDigits(b) && |a| == |b|
    ensures a == b <==> Number(a) == Number(b)
  {
    DigitsOrder(a, b);
    DigitsOrder(b, a);
    assert StrictTotal(CharLt);
    LexTrichotomy(CharLt, a, b);
  }

  /** Base versions have fixed width, so comparing the tuples is comparing the strings. */
  lemma {:induction false} BaseOrder(a: string, b: string)
    requires BaseVersion(a).Some? && BaseVersion(b).Some?
    ensures Le(BaseVersion(a).value, BaseVersion(b).value) <==> !StrLt(b, a)
  {
    assert a == a[..2] + ("." + a[3..]) && b == b[..2] + ("." + b[3..]);
    LexConcat(CharLt, b[..2], "." + b[3..], a[..2], "." + a[3..]);
    LexConcat(CharLt, ".", b[3..], ".", a[3..]);
    DigitsOrder(b[..2], a[..2]);
    DigitsOrder(b[3..], a[3..]);
    SameNumber(b[..2], a[..2]);
    TupleOrder(Number(b[..2]), Number(b[3..]), Number(a[..2]), Number(a[3..]));
  }

  lemma TupleOrder(a: nat, b: nat, c: nat, d: nat)
    ensures LexLt(NatLt, [a, b], [c, d]) <==> a < c || (a == c && b < d)
  {
    OneOrder(a, c);
    OneOrder(b, d);
    LexConcat(NatLt, [a], [b], [c], [d]);
    assert [a] + [b] == [a, b] && [c] + [d] == [c, d];
    assert [a] == [c] ==> [a][0] == [c][0];
  }

  lemma OneOrder(x: nat, y: nat)
    ensures LexLt(NatLt, [x], [y]) <==> x < y
  {
    assert [x][1..] == [] && [y][1..] == [];
    assert !LexLt(NatLt, [x][1..], [y][1..]);
  }
}
