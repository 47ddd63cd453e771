/** The JavaScript array operations the front-end relies on, over Dafny sequences:
    `slice(0, n)`, `map`, `filter`, `find` and `join`. */
module Seqs {
  import opened Wrappers

  function Min(a: int, b: int): int {
    if a < b then a else b
  }

  /** `xs.slice(0, n)`: the first `min(n, |xs|)` elements. */
  function Take<T>(s: seq<T>, n: nat): (r: seq<T>)
    ensures |r| == Min(n, |s|)
    ensures r <= s
  {
    if n < |s| then s[..n] else s
  }

  /** `xs.map(f)`. */
  function Map<T, U>(f: T -> U, s: seq<T>): (r: seq<U>)
    ensures |r| == |s|
    ensures forall i :: 0 <= i < |s| ==> r[i] == f(s[i])
  {
    if s == [] then [] else [f(s[0])] + Map(f, s[1..])
  }

  /** `a` can be obtained from `b` by deleting elements: order is kept. */
  ghost predicate Subsequence<T>(a: seq<T>, b: seq<T>)
    decreases |b|
  {
    if a == [] then true
    else if b == [] then false
    else (a[0] == b[0] && Subsequence(a[1..], b[1..])) || Subsequence(a, b[1..])
  }

  /** `xs.filter(p)`. */
  function Filter<T>(p: T -> bool, s: seq<T>): (r: seq<T>)
    ensures |r| <= |s|
    ensures forall i :: 0 <= i < |r| ==> p(r[i]) && r[i] in s
    ensures forall x :: x in s && p(x) ==> x in r
    ensures forall x :: x in s ==> multiset(r)[x] == if p(x) then multiset(s)[x] else 0
  {
    if s == [] then []
    else
      var rest := Filter(p, s[1..]);
      assert multiset(s) == multiset([s[0]]) + multiset(s[1..]) by {
        assert s == [s[0]] + s[1..];
      }
      if p(s[0]) then
        assert multiset([s[0]] + rest) == multiset([s[0]]) + multiset(rest);
        [s[0]] + rest
      else
        rest
  }

  /** The filtered sequence keeps the input's order. */
  lemma {:induction false} FilterIsSubsequence<T>(p: T -> bool, s: seq<T>)
    ensures Subsequence(Filter(p, s), s)
    decreases |s|
  {
    if s != [] {
      FilterIsSubsequence(p, s[1..]);
      if p(s[0]) {
        assert Filter(p, s) == [s[0]] + Filter(p, s[1..]);
        assert Filter(p, s)[1..] == Filter(p, s[1..]);
      } else {
        assert Filter(p, s) == Filter(p, s[1..]);
      }
    }
  }

  /** No element of `s` passes `p`. */
  ghost predicate NoneSatisfy<T>(p: T -> bool, s: seq<T>) {
    forall i :: 0 <= i < |s| ==> !p(s[i])
  }

  /** A prefix keeps the order of the sequence it is taken from. */
  lemma {:induction false} PrefixIsSubsequence<T>(a: seq<T>, b: seq<T>)
    requires a <= b
    ensures Subsequence(a, b)
    decreases |b|
  {
    if a != [] {
      assert a[1..] <= b[1..];
      PrefixIsSubsequence(a[1..], b[1..]);
    }
  }

  lemma {:induction false} SubsequenceTransitive<T>(a: seq<T>, b: seq<T>, c: seq<T>)
    requires Subsequence(a, b) && Subsequence(b, c)
    ensures Subsequence(a, c)
    decreases |c|
  {
    if a != [] {
      if b[0] == c[0] && Subsequence(b[1..], c[1..]) {
        if a[0] == b[0] && Subsequence(a[1..], b[1..]) {
          SubsequenceTransitive(a[1..], b[1..], c[1..]);
        } else {
          SubsequenceTransitive(a, b[1..], c[1..]);
        }
      } else {
        SubsequenceTransitive(a, b, c[1..]);
      }
    }
  }

  /** `i` is the position of the first element of `s` that passes `p`. */
  ghost predicate IsFirst<T>(p: T -> bool, s: seq<T>, i: int) {
    0 <= i < |s| && p(s[i]) && forall j :: 0 <= j < i ==> !p(s[j])
  }

  /** `xs.find(p)`: the first element that passes `p`, if any. */
  function Find<T>(p: T -> bool, s: seq<T>): (r: Option<T>)
    ensures r.None? <==> NoneSatisfy(p, s)
    ensures r.Some? ==> r.value in s && p(r.value)
    ensures forall i :: IsFirst(p, s, i) ==> r == Some(s[i])
  {
    if s == [] then None
    else if p(s[0]) then Some(s[0])
    else
      assert forall i :: IsFirst(p, s, i) ==> i > 0 && IsFirst(p, s[1..], i - 1);
      Find(p, s[1..])
  }

  /** `xs.join(sep)` on strings. */
  function Join(xs: seq<string>, sep: string): (r: string)
    ensures xs == [] ==> r == ""
    ensures |xs| == 1 ==> r == xs[0]
    decreases |xs|
  {
    if xs == [] then ""
    else if |xs| == 1 then xs[0]
    else xs[0] + sep + Join(xs[1..], sep)
  }
}
