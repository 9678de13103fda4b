/** A value that may be absent: a refusal, an exception, or Python's None. */
module Options {
  datatype Option<T> = None | Some(value: T)
}

/** Python strings and bytes, and the operations shared by the text models. */
module Strings {
  /** Contents of a file. */
  type Bytes = seq<bv8>

  predicate All(s: string, p: char -> bool) { forall i :: 0 <= i < |s| ==> p(s[i]) }

  /** Position of the first `c`, or the length. */
  function Find(t: string, c: char): (n: nat)
    ensures n <= |t| && (n < |t| ==> t[n] == c) && forall i :: 0 <= i < n ==> t[i] != c
  {
    if t == "" || t[0] == c then 0 else 1 + Find(t[1..], c)
  }

  lemma {:induction false} FindSpans(s: string, c: char, n: nat)
    requires n <= |s| && forall i :: 0 <= i < n ==> s[i] != c
    ensures Find(s, c) >= n && (n < |s| && s[n] == c ==> Find(s, c) == n)
  {
    if n > 0 { FindSpans(s[1..], c, n - 1); }
  }

  /** `str.split` at a character. */
  function Split(s: string, c: char): (parts: seq<string>)
    ensures parts != []
    decreases |s|
  {
    var n := Find(s, c);
    if n == |s| then [s] else [s[..n]] + Split(s[n + 1..], c)
  }

  lemma {:induction false} SplitStep(s: string, c: char, n: nat)
    requires n == Find(s, c)
    ensures Split(s, c) == if n == |s| then [s] else [s[..n]] + Split(s[n + 1..], c)
  {
  }

  /** `str.join` with a single character. */
  function Join(parts: seq<string>, c: char): string {
    if parts == [] then "" else if |parts| == 1 then parts[0] else parts[0] + [c] + Join(parts[1..], c)
  }

  lemma {:induction false} JoinMore(parts: seq<string>, l: string, c: char)
    requires parts != []
    ensures Join(parts + [l], c) == Join(parts, c) + [c] + l
  {
    if |parts| == 1 {
      assert (parts + [l])[1..] == [l];
    } else {
      JoinMore(parts[1..], l, c);
      assert (parts + [l])[1..] == parts[1..] + [l];
    }
  }

  /** White space as `str.isspace` and `\s` see it. */
  predicate IsSpace(c: char) {
    || c == ' ' || '\t' <= c <= '\r' || '\U{1c}' <= c <= '\U{1f}' || c == '\U{85}' || c == '\U{a0}' || c == '\U{1680}'
    || '\U{2000}' <= c <= '\U{200a}' || c == '\U{2028}' || c == '\U{2029}' || c == '\U{202f}' || c == '\U{205f}'
    || c == '\U{3000}'
  }

  function LStrip(s: string): string { if s != "" && IsSpace(s[0]) then LStrip(s[1..]) else s }

  function RStrip(s: string): string { if s != "" && IsSpace(s[|s| - 1]) then RStrip(s[..|s| - 1]) else s }

  /** `str.strip` */
  function Strip(s: string): string { RStrip(LStrip(s)) }

  /** No white space at either end. */
  predicate Trim(s: string) { s != "" ==> !IsSpace(s[0]) && !IsSpace(s[|s| - 1]) }

  lemma {:induction false} StripTrim(s: string)
    requires Trim(s)
    ensures Strip(s) == s && LStrip(s) == s && RStrip(s) == s
  {
  }

  lemma {:induction false} StripKeepsHead(l: string)
    requires l != "" && !IsSpace(l[0])
    ensures Strip(l) != "" && Strip(l)[0] == l[0]
    decreases |l|
  {
    if |l| > 1 && IsSpace(l[|l| - 1]) {
      StripKeepsHead(l[..|l| - 1]);
      assert RStrip(l) == RStrip(l[..|l| - 1]);
    }
  }
}
