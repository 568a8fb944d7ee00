/**
 * The list operations the program uses on arrays: `filter`, and the
 * "remove if present, append if absent" toggle of filter and preference lists.
 */
module Seqs {

  /** `a` is `b` with some elements left out and the rest in their original order. */
  ghost predicate IsSubsequence<T>(a: seq<T>, b: seq<T>)
    decreases |b|
  {
    if a == [] then true
    else if b == [] then false
    else (a[0] == b[0] && IsSubsequence(a[1..], b[1..])) || IsSubsequence(a, b[1..])
  }

  lemma {:induction false} SubsequenceMultiset<T>(a: seq<T>, b: seq<T>)
    requires IsSubsequence(a, b)
    ensures multiset(a) <= multiset(b)
    decreases |b|
  {
    if a == [] {
    } else if a[0] == b[0] && IsSubsequence(a[1..], b[1..]) {
      SubsequenceMultiset(a[1..], b[1..]);
      assert a == [a[0]] + a[1..];
      assert b == [b[0]] + b[1..];
    } else {
      SubsequenceMultiset(a, b[1..]);
      assert b == [b[0]] + b[1..];
    }
  }

  /**
   * JavaScript's `Array.prototype.filter`: the elements that satisfy `p`, in
   * order, each as often as it occurs in `s`.
   */
  function Filter<T>(s: seq<T>, p: T -> bool): (r: seq<T>)
    ensures |r| <= |s|
    ensures forall i :: 0 <= i < |r| ==> p(r[i])
    ensures forall x :: x in r ==> x in s
    ensures forall x :: x in s ==> multiset(r)[x] == if p(x) then multiset(s)[x] else 0
    ensures IsSubsequence(r, s)
  {
    if s == [] then []
    else
      assert s == [s[0]] + s[1..];
      if p(s[0]) then [s[0]] + Filter(s[1..], p) else Filter(s[1..], p)
  }

  /**
   * The three properties in Filter's contract determine its result: any
   * order-preserving selection from `s` of elements satisfying `p` that keeps
   * every satisfying element as often as `s` has it is `Filter(s, p)`.
   */
  lemma {:induction false} FilterUnique<T>(s: seq<T>, p: T -> bool, r: seq<T>)
    requires forall i :: 0 <= i < |r| ==> p(r[i])
    requires forall x :: p(x) ==> multiset(r)[x] == multiset(s)[x]
    requires IsSubsequence(r, s)
    ensures r == Filter(s, p)
    decreases |s|
  {
    if s == [] {
      if r != [] {
        assert false;
      }
    } else {
      var a := s[0];
      assert s == [a] + s[1..];
      if p(a) {
        assert r != [] by {
          assert multiset(s)[a] > 0;
        }
        if r[0] == a && IsSubsequence(r[1..], s[1..]) {
          assert r == [a] + r[1..];
          forall x | p(x)
            ensures multiset(r[1..])[x] == multiset(s[1..])[x]
          {
          }
          FilterUnique(s[1..], p, r[1..]);
        } else {
          assert IsSubsequence(r, s[1..]);
          SubsequenceMultiset(r, s[1..]);
          assert false;
        }
      } else {
        if r != [] && r[0] == a {
          assert false;
        }
        assert IsSubsequence(r, s[1..]);
        forall x | p(x)
          ensures multiset(r)[x] == multiset(s[1..])[x]
        {
          assert x != a;
        }
        FilterUnique(s[1..], p, r);
      }
    }
  }

  /** Filtering with a predicate every element meets returns the sequence itself. */
  lemma {:induction false} FilterAll<T>(s: seq<T>, p: T -> bool)
    requires forall i :: 0 <= i < |s| ==> p(s[i])
    ensures Filter(s, p) == s
  {
    if s != [] {
      FilterAll(s[1..], p);
      assert s == [s[0]] + s[1..];
    }
  }

  /** Filter depends only on which elements the predicate accepts. */
  lemma {:induction false} FilterExt<T>(s: seq<T>, p: T -> bool, q: T -> bool)
    requires forall i :: 0 <= i < |s| ==> p(s[i]) == q(s[i])
    ensures Filter(s, p) == Filter(s, q)
  {
    if s != [] {
      FilterExt(s[1..], p, q);
    }
  }

  /** Two filters in sequence are one filter with the conjunction. */
  lemma {:induction false} FilterThen<T>(s: seq<T>, p: T -> bool, q: T -> bool, pq: T -> bool)
    requires forall i :: 0 <= i < |s| ==> pq(s[i]) == (p(s[i]) && q(s[i]))
    ensures Filter(Filter(s, p), q) == Filter(s, pq)
  {
    if s != [] {
      FilterThen(s[1..], p, q, pq);
    }
  }

  lemma FilterIdempotent<T>(s: seq<T>, p: T -> bool)
    ensures Filter(Filter(s, p), p) == Filter(s, p)
  {
    FilterAll(Filter(s, p), p);
  }

  lemma {:induction false} FilterAppend<T>(s: seq<T>, t: seq<T>, p: T -> bool)
    ensures Filter(s + t, p) == Filter(s, p) + Filter(t, p)
  {
    if s == [] {
      assert s + t == t;
    } else {
      assert (s + t)[1..] == s[1..] + t;
      FilterAppend(s[1..], t, p);
    }
  }

  /**
   * The toggle the filter panel and the preference editor apply to a list:
   * every occurrence of `v` is removed when `v` is present, otherwise `v` is
   * appended.
   */
  function Toggle<T(==)>(xs: seq<T>, v: T): (r: seq<T>)
    ensures v in r <==> v !in xs
    ensures multiset(r)[v := 0] == multiset(xs)[v := 0]
    ensures v in xs ==> IsSubsequence(r, xs)
    ensures v !in xs ==> r == xs + [v]
  {
    if v in xs then Filter(xs, x => x != v) else xs + [v]
  }

  /** Toggling a value that is absent twice gives back the original list. */
  lemma ToggleTwiceAbsent<T>(xs: seq<T>, v: T)
    requires v !in xs
    ensures Toggle(Toggle(xs, v), v) == xs
  {
    FilterAppend(xs, [v], x => x != v);
    FilterAll(xs, x => x != v);
  }

  /** Toggling any value twice restores which values the list holds. */
  lemma ToggleTwiceMembers<T>(xs: seq<T>, v: T, w: T)
    ensures w in Toggle(Toggle(xs, v), v) <==> w in xs
  {
    var once := Toggle(xs, v);
    var twice := Toggle(once, v);
    if w != v {
      assert multiset(twice)[v := 0][w] == multiset(once)[v := 0][w] == multiset(xs)[v := 0][w];
    }
  }

  /** Removing every occurrence of `v` shortens the list by the number of occurrences. */
  lemma FilterOutLength<T>(xs: seq<T>, v: T)
    ensures |Filter(xs, x => x != v)| == |xs| - multiset(xs)[v]
  {
    DropLength(xs, v, x => x != v);
  }

  /** The same count for any predicate that holds exactly on the values other than `v`. */
  lemma {:induction false} DropLength<T>(xs: seq<T>, v: T, p: T -> bool)
    requires forall x :: p(x) == (x != v)
    ensures |Filter(xs, p)| == |xs| - multiset(xs)[v]
  {
    if xs != [] {
      DropLength(xs[1..], v, p);
      assert multiset(xs)[v] == (if xs[0] == v then 1 else 0) + multiset(xs[1..])[v] by {
        assert xs == [xs[0]] + xs[1..];
      }
      assert p(xs[0]) == (xs[0] != v);
      assert |Filter(xs, p)| == (if xs[0] == v then 0 else 1) + |Filter(xs[1..], p)|;
    }
  }

  /** A toggle appends one element or removes all occurrences of one. */
  lemma ToggleLength<T>(xs: seq<T>, v: T)
    ensures |Toggle(xs, v)| == if v in xs then |xs| - multiset(xs)[v] else |xs| + 1
  {
    if v in xs {
      FilterOutLength(xs, v);
    }
  }
}
