/** Sequence operations the modelled code gets from `Array.prototype`:
    `filter` and `find`, with the facts the other modules rely on. */
module Seqs {
  import opened Wrappers

  /** `s.filter(f)`: the elements of `s` that satisfy `f`, in their order in `s`. */
  function Filter<T>(s: seq<T>, f: T -> bool): (r: seq<T>)
    ensures |r| <= |s|
    ensures forall x :: x in r ==> x in s && f(x)
  {
    if s == [] then []
    else if f(s[0]) then [s[0]] + Filter(s[1..], f)
    else Filter(s[1..], f)
  }

  /** `s.find(f)`: the first element of `s` that satisfies `f`, or none. */
  function FindFirst<T(==)>(s: seq<T>, f: T -> bool): (r: Option<T>)
    ensures r.None? <==> forall i :: 0 <= i < |s| ==> !f(s[i])
    ensures r.Some? ==> exists k :: 0 <= k < |s| && s[k] == r.value && f(s[k])
                          && forall i :: 0 <= i < k ==> !f(s[i])
  {
    if s == [] then None
    else if f(s[0]) then
      Some(s[0])
    else
      var r := FindFirst(s[1..], f);
      if r.Some? then
        var k :| 0 <= k < |s[1..]| && s[1..][k] == r.value && f(s[1..][k])
                 && forall i :: 0 <= i < k ==> !f(s[1..][i]);
        assert s[k + 1] == r.value && forall i :: 0 <= i < k + 1 ==> !f(s[i]);
        r
      else
        assert forall i :: 1 <= i < |s| ==> s[i] == s[1..][i - 1];
        r
  }

  /** `a` occurs in `b` in the same order, possibly with elements of `b` between. */
  ghost predicate IsSubsequence<T>(a: seq<T>, b: seq<T>)
  {
    if a == [] then true
    else if b == [] then false
    else (a[0] == b[0] && IsSubsequence(a[1..], b[1..])) || IsSubsequence(a, b[1..])
  }

  lemma {:induction false} FilterAppend<T>(a: seq<T>, b: seq<T>, f: T -> bool)
    ensures Filter(a + b, f) == Filter(a, f) + Filter(b, f)
  {
    if a == [] {
      assert a + b == b;
    } else {
      assert (a + b)[0] == a[0];
      assert (a + b)[1..] == a[1..] + b;
      FilterAppend(a[1..], b, f);
    }
  }

  /** Filtering keeps the order: the result is a subsequence of the input. */
  lemma {:induction false} FilterIsSubsequence<T>(s: seq<T>, f: T -> bool)
    ensures IsSubsequence(Filter(s, f), s)
  {
    if s != [] {
      FilterIsSubsequence(s[1..], f);
      if f(s[0]) {
        assert ([s[0]] + Filter(s[1..], f))[1..] == Filter(s[1..], f);
      } else {
        SubsequenceOfTail(Filter(s, f), s);
      }
    }
  }

  lemma {:induction false} SubsequenceOfTail<T>(a: seq<T>, s: seq<T>)
    requires s != [] && IsSubsequence(a, s[1..])
    ensures IsSubsequence(a, s)
  {
  }

  /** Filtering keeps every element that satisfies `f` as often as it occurs,
      and drops every other element. */
  lemma {:induction false} FilterCount<T>(s: seq<T>, f: T -> bool, x: T)
    ensures multiset(Filter(s, f))[x] == if f(x) then multiset(s)[x] else 0
  {
    if s != [] {
      FilterCount(s[1..], f, x);
      assert s == [s[0]] + s[1..];
    }
  }

  /** Splitting by `f` and by its negation loses and invents nothing. */
  lemma {:induction false} FilterSplitPermutation<T>(s: seq<T>, f: T -> bool, g: T -> bool)
    requires forall x :: g(x) == !f(x)
    ensures multiset(Filter(s, f) + Filter(s, g)) == multiset(s)
  {
    if s != [] {
      FilterSplitPermutation(s[1..], f, g);
      assert s == [s[0]] + s[1..];
    }
  }

  /** Filtering twice by the same test changes nothing the second time. */
  lemma {:induction false} FilterIdempotent<T>(s: seq<T>, f: T -> bool)
    ensures Filter(Filter(s, f), f) == Filter(s, f)
  {
    if s != [] {
      FilterIdempotent(s[1..], f);
      if f(s[0]) {
        assert ([s[0]] + Filter(s[1..], f))[1..] == Filter(s[1..], f);
      }
    }
  }

  /** Filtering by a test that no kept element passes leaves nothing. */
  lemma {:induction false} FilterDisjoint<T>(s: seq<T>, f: T -> bool, g: T -> bool)
    requires forall x :: f(x) ==> !g(x)
    ensures Filter(Filter(s, f), g) == []
  {
    if s != [] {
      FilterDisjoint(s[1..], f, g);
      if f(s[0]) {
        assert ([s[0]] + Filter(s[1..], f))[1..] == Filter(s[1..], f);
      }
    }
  }

  /** A filter that no element passes leaves nothing. */
  lemma {:induction false} FilterNone<T>(s: seq<T>, f: T -> bool)
    requires forall i :: 0 <= i < |s| ==> !f(s[i])
    ensures Filter(s, f) == []
  {
    if s != [] {
      FilterNone(s[1..], f);
    }
  }

  lemma MapAppend<T, U>(a: seq<T>, b: seq<T>, h: T -> U)
    ensures Map(a + b, h) == Map(a, h) + Map(b, h)
  {
  }

  /** A filter that every element passes is the identity. */
  lemma {:induction false} FilterAll<T>(s: seq<T>, f: T -> bool)
    requires forall i :: 0 <= i < |s| ==> f(s[i])
    ensures Filter(s, f) == s
  {
    if s != [] {
      FilterAll(s[1..], f);
      assert s == [s[0]] + s[1..];
    }
  }

  /** `s.map(f)`. */
  function Map<T, U>(s: seq<T>, f: T -> U): (r: seq<U>)
    ensures |r| == |s|
    ensures forall i :: 0 <= i < |s| ==> r[i] == f(s[i])
  {
    seq(|s|, i requires 0 <= i < |s| => f(s[i]))
  }

  lemma MapCons<T, U>(x: T, s: seq<T>, h: T -> U)
    ensures Map([x] + s, h) == [h(x)] + Map(s, h)
  {
  }

  /** Splitting by `f` and its negation and then mapping gives the mapped
      input, reordered: nothing is lost and nothing invented. */
  lemma {:induction false} MapFilterSplit<T, U>(s: seq<T>, f: T -> bool, g: T -> bool, h: T -> U)
    requires forall x :: g(x) == !f(x)
    ensures multiset(Map(Filter(s, f), h) + Map(Filter(s, g), h)) == multiset(Map(s, h))
  {
    if s != [] {
      MapFilterSplit(s[1..], f, g, h);
      assert s == [s[0]] + s[1..];
      MapCons(s[0], s[1..], h);
      if f(s[0]) {
        MapCons(s[0], Filter(s[1..], f), h);
      } else {
        MapCons(s[0], Filter(s[1..], g), h);
      }
    }
  }
}
