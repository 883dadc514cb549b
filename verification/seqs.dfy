/** `Array.prototype.filter` over immutable sequences, and what the pages
    rely on about it: order is kept, nothing matching is dropped, and
    filtering twice is filtering once. */
module Seqs {

  /** `s.filter(f)`. */
  function Keep<T>(s: seq<T>, f: T -> bool): (r: seq<T>)
    ensures |r| <= |s|
    ensures forall i :: 0 <= i < |r| ==> f(r[i])
    ensures multiset(r) <= multiset(s)
    ensures forall x :: x in s && f(x) ==> multiset(r)[x] == multiset(s)[x]
    decreases |s|
  {
    if |s| == 0 then []
    else
      var rest := Keep(s[1..], f);
      assert s == [s[0]] + s[1..];
      if f(s[0]) then [s[0]] + rest else rest
  }

  /** `a` can be obtained from `b` by deleting elements. */
  predicate IsSubsequence<T(==)>(a: seq<T>, b: seq<T>)
    decreases |b|
  {
    |a| == 0
    || (|b| > 0 && ((a[0] == b[0] && IsSubsequence(a[1..], b[1..])) || IsSubsequence(a, b[1..])))
  }

  lemma {:induction false} KeepIsSubsequence<T>(s: seq<T>, f: T -> bool)
    ensures IsSubsequence(Keep(s, f), s)
    decreases |s|
  {
    if |s| > 0 {
      KeepIsSubsequence(s[1..], f);
      var rest := Keep(s[1..], f);
      if f(s[0]) {
        assert Keep(s, f) == [s[0]] + rest;
        assert ([s[0]] + rest)[1..] == rest;
      }
    }
  }

  lemma {:induction false} KeepIdempotent<T>(s: seq<T>, f: T -> bool)
    ensures Keep(Keep(s, f), f) == Keep(s, f)
    decreases |s|
  {
    if |s| > 0 {
      KeepIdempotent(s[1..], f);
      var rest := Keep(s[1..], f);
      if f(s[0]) {
        assert ([s[0]] + rest)[1..] == rest;
      }
    }
  }

  /** Keeping everything changes nothing. */
  lemma {:induction false} KeepAll<T>(s: seq<T>, f: T -> bool)
    requires forall i :: 0 <= i < |s| ==> f(s[i])
    ensures Keep(s, f) == s
    decreases |s|
  {
    if |s| > 0 {
      KeepAll(s[1..], f);
      assert s == [s[0]] + s[1..];
    }
  }

  /** Splitting by a predicate and its negation accounts for every element. */
  lemma {:induction false} KeepPartition<T>(s: seq<T>, f: T -> bool, g: T -> bool)
    requires forall x :: g(x) == !f(x)
    ensures |Keep(s, f)| + |Keep(s, g)| == |s|
    decreases |s|
  {
    if |s| > 0 {
      KeepPartition(s[1..], f, g);
    }
  }

  /** A stronger condition keeps no more elements than a weaker one. */
  lemma {:induction false} KeepMonotone<T>(s: seq<T>, f: T -> bool, g: T -> bool)
    requires forall x :: f(x) ==> g(x)
    ensures |Keep(s, f)| <= |Keep(s, g)|
    decreases |s|
  {
    if |s| > 0 {
      KeepMonotone(s[1..], f, g);
    }
  }
}
