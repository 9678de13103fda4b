/** Strict total orders, the lexicographic order they induce on sequences, and sorting.

    Python compares tuples and strings lexicographically and `sorted` sorts by that
    order; the modules that sort package names, records or report keys share this one. */
module Orders {
  lemma Regroup<T>(x: seq<T>, a: seq<T>, b: seq<T>, c: seq<T>)
    requires c == a + b
    ensures x + c == x + a + b
  {
  }

  ghost predicate StrictTotal<T(!new)>(lt: (T, T) -> bool) {
    && (forall a :: !lt(a, a))
    && (forall a, b, c :: lt(a, b) && lt(b, c) ==> lt(a, c))
    && (forall a, b :: a == b || lt(a, b) || lt(b, a))
  }

  /** Python's `a < b` on sequences whose elements are ordered by `lt`. */
  predicate LexLt<T(==)>(lt: (T, T) -> bool, a: seq<T>, b: seq<T>) {
    if b == [] then false
    else if a == [] then true
    else if a[0] == b[0] then LexLt(lt, a[1..], b[1..])
    else lt(a[0], b[0])
  }

  predicate CharLt(a: char, b: char) { a < b }

  /** Order of Python strings: by code point. */
  predicate StrLt(a: string, b: string) { LexLt(CharLt, a, b) }

  /** Order of tuples of strings. */
  predicate FieldsLt(a: seq<string>, b: seq<string>) { LexLt(StrLt, a, b) }

  lemma {:induction false} LexTransitive<T(!new)>(lt: (T, T) -> bool, a: seq<T>, b: seq<T>, c: seq<T>)
    requires StrictTotal(lt) && LexLt(lt, a, b) && LexLt(lt, b, c)
    ensures LexLt(lt, a, c)
    decreases |a|
  {
    if a != [] && a[0] == b[0] && b[0] == c[0] {
      LexTransitive(lt, a[1..], b[1..], c[1..]);
    }
  }

  lemma {:induction false} LexTrichotomy<T(!new)>(lt: (T, T) -> bool, a: seq<T>, b: seq<T>)
    requires StrictTotal(lt)
    ensures a == b || LexLt(lt, a, b) || LexLt(lt, b, a)
    ensures !LexLt(lt, a, a)
    decreases |a|
  {
    if a != [] {
      LexTrichotomy(lt, a[1..], if b == [] then [] else b[1..]);
      if b != [] && a[0] == b[0] && a[1..] == b[1..] {
        assert a == [a[0]] + a[1..] && b == [b[0]] + b[1..];
      }
    }
  }

  lemma StrTotal()
    ensures StrictTotal(StrLt)
  {
    assert StrictTotal(CharLt);
    forall a: string, b: string ensures a == b || StrLt(a, b) || StrLt(b, a)
      ensures !StrLt(a, a)
    { LexTrichotomy(CharLt, a, b); }
    forall a: string, b: string, c: string | StrLt(a, b) && StrLt(b, c) ensures StrLt(a, c)
    { LexTransitive(CharLt, a, b, c); }
  }

  lemma FieldsTotal()
    ensures StrictTotal(FieldsLt)
  {
    StrTotal();
    forall a: seq<string>, b: seq<string> ensures a == b || FieldsLt(a, b) || FieldsLt(b, a)
      ensures !FieldsLt(a, a)
    { LexTrichotomy(StrLt, a, b); }
    forall a: seq<string>, b: seq<string>, c: seq<string> | FieldsLt(a, b) && FieldsLt(b, c) ensures FieldsLt(a, c)
    { LexTransitive(StrLt, a, b, c); }
  }

  ghost predicate StrictlySorted<T(!new)>(lt: (T, T) -> bool, s: seq<T>) {
    forall i, j :: 0 <= i < j < |s| ==> lt(s[i], s[j])
  }

  ghost predicate Distinct<T(!new)>(s: seq<T>) {
    forall i, j :: 0 <= i < j < |s| ==> s[i] != s[j]
  }

  function Insert<T(==)>(lt: (T, T) -> bool, x: T, s: seq<T>): seq<T> {
    if s == [] then [x]
    else if lt(s[0], x) then [s[0]] + Insert(lt, x, s[1..])
    else [x] + s
  }

  /** Python's `sorted`. */
  function Sort<T(==)>(lt: (T, T) -> bool, s: seq<T>): seq<T> {
    if s == [] then [] else Insert(lt, s[0], Sort(lt, s[1..]))
  }

  lemma {:induction false} InsertSorted<T(!new)>(lt: (T, T) -> bool, x: T, s: seq<T>)
    requires StrictTotal(lt) && StrictlySorted(lt, s) && x !in s
    ensures StrictlySorted(lt, Insert(lt, x, s))
    ensures forall y :: y in Insert(lt, x, s) <==> y == x || y in s
    ensures |Insert(lt, x, s)| == |s| + 1
  {
    if s == [] {
    } else if lt(s[0], x) {
      InsertSorted(lt, x, s[1..]);
      var r := Insert(lt, x, s[1..]);
      forall j | 0 <= j < |r| ensures lt(s[0], r[j]) { assert r[j] in r; }
      forall y ensures y in Insert(lt, x, s) <==> y == x || y in s {
        assert s == [s[0]] + s[1..];
      }
    } else {
      assert lt(x, s[0]) by { assert s[0] in s; }
    }
  }

  /** Sorting a duplicate-free list keeps its elements and makes the order strict. */
  lemma {:induction false} SortSorts<T(!new)>(lt: (T, T) -> bool, s: seq<T>)
    requires StrictTotal(lt) && Distinct(s)
    ensures StrictlySorted(lt, Sort(lt, s))
    ensures forall y :: y in Sort(lt, s) <==> y in s
    ensures |Sort(lt, s)| == |s|
  {
    if s != [] {
      SortSorts(lt, s[1..]);
      InsertSorted(lt, s[0], Sort(lt, s[1..]));
      assert s == [s[0]] + s[1..];
    }
  }

  /** A strictly sorted listing is determined by its set of elements. */
  lemma {:induction false} SortedUnique<T(!new)>(lt: (T, T) -> bool, a: seq<T>, b: seq<T>)
    requires StrictTotal(lt) && StrictlySorted(lt, a) && StrictlySorted(lt, b)
    requires forall y :: y in a <==> y in b
    ensures a == b
    decreases |a|
  {
    assert b != [] ==> b[0] in b;
    if a == [] {
    } else {
      assert a[0] in a;
      assert a[0] in b && b[0] in a;
      assert a[0] == b[0];
      forall y ensures y in a[1..] <==> y in b[1..] {
        if y in a[1..] { var i :| 0 <= i < |a| - 1 && a[1..][i] == y; assert lt(a[0], a[i + 1]); assert y in a; }
        if y in b[1..] { var i :| 0 <= i < |b| - 1 && b[1..][i] == y; assert lt(b[0], b[i + 1]); assert y in b; }
      }
      SortedUnique(lt, a[1..], b[1..]);
      assert a == [a[0]] + a[1..] && b == [b[0]] + b[1..];
    }
  }

  lemma StrictlySortedDistinct<T(!new)>(lt: (T, T) -> bool, s: seq<T>)
    requires StrictTotal(lt) && StrictlySorted(lt, s)
    ensures Distinct(s)
  {
  }
}
