/**
 Sequence filtering as JavaScript's `Array.prototype.filter` performs it:
 keep the elements a predicate accepts, in their original order. Every
 list-shrinking step of the to-do widget (delete, clear-completed, the
 filtered view, the completed counter) is an instance of `Keep`.
 */
module Seqs {

  /** `r` can be obtained from `s` by deleting elements, without reordering. */
  predicate IsSubsequence<T(==)>(r: seq<T>, s: seq<T>)
    decreases |s|
  {
    || |r| == 0
    || (&& |s| > 0
        && ((r[0] == s[0] && IsSubsequence(r[1..], s[1..])) || IsSubsequence(r, s[1..])))
  }

  /** The elements of `s` accepted by `p`, in order and with their multiplicity. */
  function Keep<T(!new)>(s: seq<T>, p: T -> bool): (r: seq<T>)
    ensures |r| <= |s|
    ensures forall x :: x in r <==> x in s && p(x)
  {
    if |s| == 0 then []
    else
      assert s == [s[0]] + s[1..];
      var rest := Keep(s[1..], p);
      if p(s[0]) then [s[0]] + rest else rest
  }

  /** `Keep` loses nothing exactly when every element is accepted. */
  lemma {:induction false} KeepLength<T(!new)>(s: seq<T>, p: T -> bool)
    ensures |Keep(s, p)| == |s| <==> forall i :: 0 <= i < |s| ==> p(s[i])
  {
    if |s| > 0 {
      KeepLength(s[1..], p);
      KeepFirst(s, p);
      assert forall i :: 1 <= i < |s| ==> s[i] == s[1..][i - 1];
    }
  }

  /** `Keep` drops the rejected elements entirely and keeps every accepted one
      as often as it occurs. */
  lemma {:induction false} KeepCounts<T(!new)>(s: seq<T>, p: T -> bool)
    ensures forall x :: multiset(Keep(s, p))[x] == if p(x) then multiset(s)[x] else 0
  {
    if |s| > 0 {
      KeepCounts(s[1..], p);
      KeepFirst(s, p);
      assert s == [s[0]] + s[1..];
    }
  }

  /** `Keep` does not reorder. */
  lemma {:induction false} KeepOrdered<T(!new)>(s: seq<T>, p: T -> bool)
    ensures IsSubsequence(Keep(s, p), s)
  {
    if |s| > 0 {
      KeepOrdered(s[1..], p);
      KeepFirst(s, p);
      var rest := Keep(s[1..], p);
      if p(s[0]) {
        assert ([s[0]] + rest)[1..] == rest;
      }
    }
  }

  /** Filtering distributes over concatenation. */
  lemma {:induction false} KeepAppend<T(!new)>(a: seq<T>, b: seq<T>, p: T -> bool)
    ensures Keep(a + b, p) == Keep(a, p) + Keep(b, p)
  {
    if |a| == 0 {
      assert a + b == b;
    } else {
      var head := if p(a[0]) then [a[0]] else [];
      var tail := a[1..] + b;
      assert (a + b)[0] == a[0];
      assert (a + b)[1..] == tail;
      KeepAppend(a[1..], b, p);
      calc {
        Keep(a + b, p);
        { KeepFirst(a + b, p); }
        head + Keep(tail, p);
        head + (Keep(a[1..], p) + Keep(b, p));
        (head + Keep(a[1..], p)) + Keep(b, p);
        { KeepFirst(a, p); }
        Keep(a, p) + Keep(b, p);
      }
    }
  }

  /** One unfolding of `Keep`: the first element's fate, then the rest. */
  lemma KeepFirst<T(!new)>(s: seq<T>, p: T -> bool)
    requires |s| > 0
    ensures Keep(s, p) == (if p(s[0]) then [s[0]] else []) + Keep(s[1..], p)
  {
  }

  /** A predicate that accepts every element filters nothing out. */
  lemma {:induction false} KeepAllAccepted<T(!new)>(s: seq<T>, p: T -> bool)
    requires forall i :: 0 <= i < |s| ==> p(s[i])
    ensures Keep(s, p) == s
  {
    if |s| > 0 {
      KeepAllAccepted(s[1..], p);
      assert s == [s[0]] + s[1..];
    }
  }

  /** Filtering twice by the same predicate is filtering once. */
  lemma KeepIdempotent<T(!new)>(s: seq<T>, p: T -> bool)
    ensures Keep(Keep(s, p), p) == Keep(s, p)
  {
    var r := Keep(s, p);
    forall i | 0 <= i < |r|
      ensures p(r[i])
    {
      assert r[i] in r;
    }
    KeepAllAccepted(r, p);
  }

  /** Filters by predicates that agree everywhere give the same result. */
  lemma {:induction false} KeepExtensional<T(!new)>(s: seq<T>, p: T -> bool, q: T -> bool)
    requires forall x :: p(x) == q(x)
    ensures Keep(s, p) == Keep(s, q)
  {
    if |s| > 0 {
      KeepExtensional(s[1..], p, q);
    }
  }

  /** Filtering by a predicate and by its negation splits `s`: the two results
      together hold every element exactly as often as `s` does. */
  lemma KeepPartition<T(!new)>(s: seq<T>, p: T -> bool, q: T -> bool)
    requires forall x :: q(x) == !p(x)
    ensures multiset(Keep(s, p)) + multiset(Keep(s, q)) == multiset(s)
    ensures |Keep(s, p)| + |Keep(s, q)| == |s|
  {
    var a, b := Keep(s, p), Keep(s, q);
    KeepCounts(s, p);
    KeepCounts(s, q);
    assert forall x :: (multiset(a) + multiset(b))[x] == multiset(s)[x];
    assert multiset(a) + multiset(b) == multiset(s);
    assert |multiset(a) + multiset(b)| == |multiset(s)|;
  }
}
