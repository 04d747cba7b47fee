/**
 * Sequence filtering. Both `Array.prototype.filter` and a global `String.prototype.replace`
 * that deletes every character of a class keep, in order, exactly the elements that pass a
 * test; `Keep` is that operation, proved once here and used by both pages.
 */
module Seqs {

  /** `sub` can be obtained from `s` by deleting elements (order is preserved). */
  predicate IsSubsequence<T(==,!new)>(sub: seq<T>, s: seq<T>)
    decreases |s|
  {
    if sub == [] then true
    else if s == [] then false
    else if sub[0] == s[0] then IsSubsequence(sub[1..], s[1..])
    else IsSubsequence(sub, s[1..])
  }

  /**
   * The elements of `s` that satisfy `p`, in their original order. The result is
   * determined by its contract: a subsequence of `s`, every element passes `p`,
   * and every passing value occurs as often as in `s`.
   */
  function Keep<T(==,!new)>(s: seq<T>, p: T -> bool): (r: seq<T>)
    ensures |r| <= |s|
    ensures forall i :: 0 <= i < |r| ==> p(r[i])
    ensures IsSubsequence(r, s)
    ensures forall x :: p(x) ==> multiset(r)[x] == multiset(s)[x]
  {
    if s == [] then []
    else
      assert s == [s[0]] + s[1..];
      var rest := Keep(s[1..], p);
      if p(s[0]) then
        assert ([s[0]] + rest)[1..] == rest;
        [s[0]] + rest
      else
        rest
  }

  /** When every element passes, filtering changes nothing. */
  lemma {:induction false} KeepAllPass<T(!new)>(s: seq<T>, p: T -> bool)
    requires forall i :: 0 <= i < |s| ==> p(s[i])
    ensures Keep(s, p) == s
  {
    if s != [] {
      KeepAllPass(s[1..], p);
    }
  }

  /** Filtering twice with the same test is filtering once. */
  lemma KeepIdempotent<T(!new)>(s: seq<T>, p: T -> bool)
    ensures Keep(Keep(s, p), p) == Keep(s, p)
  {
    KeepAllPass(Keep(s, p), p);
  }

  /** Filtering distributes over concatenation: the relative order of kept elements is the input's. */
  lemma {:induction false} KeepAppend<T(!new)>(a: seq<T>, b: seq<T>, p: T -> bool)
    ensures Keep(a + b, p) == Keep(a, p) + Keep(b, p)
  {
    if a == [] {
      assert a + b == b;
    } else {
      assert (a + b)[0] == a[0];
      assert (a + b)[1..] == a[1..] + b;
      KeepAppend(a[1..], b, p);
    }
  }

  /** Two tests that agree on every value keep the same elements. */
  lemma {:induction false} KeepSameTest<T(!new)>(s: seq<T>, p: T -> bool, q: T -> bool)
    requires forall x :: p(x) == q(x)
    ensures Keep(s, p) == Keep(s, q)
  {
    if s != [] {
      KeepSameTest(s[1..], p, q);
    }
  }

  /** Nothing is kept exactly when no element passes. */
  lemma {:induction false} KeepEmptyIff<T(!new)>(s: seq<T>, p: T -> bool)
    ensures Keep(s, p) == [] <==> forall i :: 0 <= i < |s| ==> !p(s[i])
  {
    if s != [] {
      KeepEmptyIff(s[1..], p);
      assert forall i :: 1 <= i < |s| ==> s[i] == s[1..][i - 1];
    }
  }

  /** Everything is kept exactly when every element passes. */
  lemma {:induction false} KeepFullIff<T(!new)>(s: seq<T>, p: T -> bool)
    ensures |Keep(s, p)| == |s| <==> forall i :: 0 <= i < |s| ==> p(s[i])
  {
    if s != [] {
      KeepFullIff(s[1..], p);
      if p(s[0]) {
        assert |Keep(s, p)| == 1 + |Keep(s[1..], p)|;
        if forall i :: 0 <= i < |s| ==> p(s[i]) {
          forall j | 0 <= j < |s| - 1 ensures p(s[1..][j]) {
            assert s[1..][j] == s[j + 1];
          }
        } else {
          var i :| 0 <= i < |s| && !p(s[i]);
          assert !p(s[1..][i - 1]);
        }
      } else {
        assert |Keep(s, p)| == |Keep(s[1..], p)| < |s|;
      }
    }
  }
}
