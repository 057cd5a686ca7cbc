/** Small value types and the Python string and list operations the dashboard code relies on. */
module Basics {

  datatype Option<+T> = None | Some(value: T)

  /** The outcome of an operation that raises in Python: a value or the error it raised. */
  datatype Result<+T, +E> = Ok(value: T) | Err(error: E)

  // ---------------------------------------------------------------------------
  // Strings

  predicate StartsWith(s: string, prefix: string) {
    |prefix| <= |s| && s[..|prefix|] == prefix
  }

  /** `sub` occurs in `s` at position i. */
  predicate OccursAt(s: string, sub: string, i: int) {
    0 <= i && i + |sub| <= |s| && s[i..i + |sub|] == sub
  }

  /** Python's `sub in s` for two strings (also what a regex with no special characters finds). */
  predicate Contains(s: string, sub: string) {
    exists i :: 0 <= i <= |s| - |sub| && OccursAt(s, sub, i)
  }

  lemma ContainsMiddle(a: string, b: string, c: string)
    ensures Contains(a + b + c, b)
  {
    assert (a + b + c)[|a|..|a| + |b|] == b;
    assert OccursAt(a + b + c, b, |a|);
  }

  /** Substring containment is transitive. */
  lemma ContainsTransitive(s: string, t: string, u: string)
    requires Contains(s, t) && Contains(t, u)
    ensures Contains(s, u)
  {
    var i :| 0 <= i <= |s| - |t| && OccursAt(s, t, i);
    var j :| 0 <= j <= |t| - |u| && OccursAt(t, u, j);
    assert t == s[i..i + |t|];
    forall k | 0 <= k < |u|
      ensures s[i + j + k] == u[k]
    {
      assert u[k] == t[j + k] == s[i + j + k];
    }
    assert s[i + j..i + j + |u|] == u;
    assert OccursAt(s, u, i + j);
  }

  /** Every character of a contained string occurs in the containing one. */
  lemma ContainsChars(s: string, sub: string)
    requires Contains(s, sub)
    ensures forall k :: 0 <= k < |sub| ==> sub[k] in s
  {
    var i :| 0 <= i <= |s| - |sub| && OccursAt(s, sub, i);
    forall k | 0 <= k < |sub|
      ensures sub[k] in s
    {
      assert s[i + k] == sub[k];
    }
  }

  /** Python's `sep.join(xs)`. */
  function Join(sep: string, xs: seq<string>): (r: string)
    ensures xs == [] ==> r == ""
    ensures |xs| == 1 ==> r == xs[0]
    ensures xs != [] ==> StartsWith(r, xs[0])
  {
    if xs == [] then ""
    else if |xs| == 1 then xs[0]
    else xs[0] + sep + Join(sep, xs[1..])
  }

  /** Python's `s.rstrip(chars)`: drops every trailing character that belongs to `chars`. */
  function RStrip(s: string, chars: set<char>): (r: string)
    ensures |r| <= |s| && r == s[..|r|]
    ensures r == [] || r[|r| - 1] !in chars
    ensures forall i :: |r| <= i < |s| ==> s[i] in chars
  {
    if |s| > 0 && s[|s| - 1] in chars then RStrip(s[..|s| - 1], chars) else s
  }

  /** Stripping `tail` made only of `chars` from a text that ends outside `chars` gives the text back. */
  lemma RStripTail(s: string, tail: string, chars: set<char>)
    requires s == [] || s[|s| - 1] !in chars
    requires forall i :: 0 <= i < |tail| ==> tail[i] in chars
    ensures RStrip(s + tail, chars) == s
  {
    var r := RStrip(s + tail, chars);
    assert r == (s + tail)[..|s|] == s;
  }

  function DigitChar(d: nat): char
    requires d < 10
  {
    "0123456789"[d]
  }

  function NatToString(n: nat): (r: string)
    ensures |r| >= 1
  {
    if n < 10 then [DigitChar(n)] else NatToString(n / 10) + [DigitChar(n % 10)]
  }

  /** Python's `str(n)` for an integer. */
  function IntToString(n: int): string {
    if n < 0 then "-" + NatToString(-n) else NatToString(n)
  }

  // ---------------------------------------------------------------------------
  // Sequences

  predicate Distinct<T(==)>(s: seq<T>) {
    forall i, j :: 0 <= i < j < |s| ==> s[i] != s[j]
  }

  predicate StrictlyIncreasing(s: seq<int>) {
    forall i, j :: 0 <= i < j < |s| ==> s[i] < s[j]
  }

  lemma ConsIncreasing(h: int, rest: seq<int>)
    requires StrictlyIncreasing(rest)
    requires forall x :: x in rest ==> h < x
    ensures StrictlyIncreasing([h] + rest)
  {
    forall i, j | 0 <= i < j < |[h] + rest|
      ensures ([h] + rest)[i] < ([h] + rest)[j]
    {
      assert ([h] + rest)[j] == rest[j - 1] && rest[j - 1] in rest;
      if i > 0 {
        assert ([h] + rest)[i] == rest[i - 1];
      }
    }
  }

  lemma SnocIncreasing(front: seq<int>, h: int)
    requires StrictlyIncreasing(front)
    requires forall x :: x in front ==> x < h
    ensures StrictlyIncreasing(front + [h])
  {
    forall i, j | 0 <= i < j < |front + [h]|
      ensures (front + [h])[i] < (front + [h])[j]
    {
      assert (front + [h])[i] == front[i] && front[i] in front;
      if j < |front| {
        assert (front + [h])[j] == front[j];
      }
    }
  }

  /** `s` is `t` with some elements left out, the others kept in their order. */
  predicate IsSubsequence<T(==)>(s: seq<T>, t: seq<T>)
    decreases |t|
  {
    s == [] || (t != [] && ((s[0] == t[0] && IsSubsequence(s[1..], t[1..])) || IsSubsequence(s, t[1..])))
  }

  /** The position of the first occurrence of `x` in `xs`. */
  function FirstIndex<T(==)>(xs: seq<T>, x: T): (k: nat)
    requires x in xs
    ensures k < |xs| && xs[k] == x && forall j :: 0 <= j < k ==> xs[j] != x
  {
    var n := |xs| - 1;
    if x in xs[..n] then FirstIndex(xs[..n], x) else n
  }

  /** `list(dict.fromkeys(xs))`, also pandas' `unique()`: each element once, at its first occurrence. */
  function Dedup(xs: seq<string>): (r: seq<string>)
    ensures Distinct(r)
    ensures forall x :: x in r <==> x in xs
  {
    if xs == [] then []
    else
      var n := |xs| - 1;
      var d := Dedup(xs[..n]);
      assert forall x :: x in xs <==> x in xs[..n] || x == xs[n] by {
        assert xs == xs[..n] + [xs[n]];
      }
      if xs[n] in d then d else d + [xs[n]]
  }

  /** The first occurrence of an element of the front of `xs` lies in that front. */
  lemma FirstIndexFront(xs: seq<string>, x: string)
    requires xs != [] && x in xs[..|xs| - 1]
    ensures FirstIndex(xs, x) == FirstIndex(xs[..|xs| - 1], x) < |xs| - 1
  {
  }

  /** Dedup lists the elements in the order of their first occurrences. */
  lemma {:induction false} DedupOrder(xs: seq<string>)
    ensures forall p, q :: 0 <= p < q < |Dedup(xs)| ==> FirstIndex(xs, Dedup(xs)[p]) < FirstIndex(xs, Dedup(xs)[q])
  {
    if xs != [] {
      var n := |xs| - 1;
      var d := Dedup(xs[..n]);
      var r := Dedup(xs);
      DedupOrder(xs[..n]);
      forall p, q | 0 <= p < q < |r|
        ensures FirstIndex(xs, r[p]) < FirstIndex(xs, r[q])
      {
        assert r[p] == d[p] && d[p] in d;
        FirstIndexFront(xs, d[p]);
        if q < |d| {
          assert r[q] == d[q] && d[q] in d;
          FirstIndexFront(xs, d[q]);
        } else {
          assert r[q] == xs[n] && xs[n] !in xs[..n];
        }
      }
    }
  }
}
