/** List operations shared by the route handlers and the pages: `Array.prototype.filter`,
    the ordering a `findMany` with `orderBy` returns, and `take`. */
module Query {
  import opened Js

  /** `s.filter(p)` */
  function Filter<T>(s: seq<T>, p: T -> bool): (r: seq<T>)
    ensures |r| <= |s|
    ensures forall i :: 0 <= i < |r| ==> p(r[i]) && r[i] in s
    ensures forall i :: 0 <= i < |s| && p(s[i]) ==> s[i] in r
    decreases |s|
  {
    if s == [] then [] else (if p(s[0]) then [s[0]] else []) + Filter(s[1..], p)
  }

  /** `r` is `s` with some elements dropped and the rest in their original order. */
  ghost predicate IsSubsequence<T>(r: seq<T>, s: seq<T>)
    decreases |s|
  {
    if r == [] then true
    else if s == [] then false
    else (r[0] == s[0] && IsSubsequence(r[1..], s[1..])) || IsSubsequence(r, s[1..])
  }

  /** Every list is a subsequence of itself (nothing dropped). */
  lemma {:induction false} SubsequenceOfItself<T>(s: seq<T>)
    ensures IsSubsequence(s, s)
    decreases |s|
  {
    if s != [] {
      SubsequenceOfItself(s[1..]);
    }
  }

  lemma {:induction false} FilterIsSubsequence<T>(s: seq<T>, p: T -> bool)
    ensures IsSubsequence(Filter(s, p), s)
    decreases |s|
  {
    if s != [] {
      FilterIsSubsequence(s[1..], p);
      var r := Filter(s, p);
      if p(s[0]) {
        assert r == [s[0]] + Filter(s[1..], p);
        assert r[0] == s[0] && r[1..] == Filter(s[1..], p);
      } else {
        assert r == Filter(s[1..], p);
      }
    }
  }

  /** Two successive `filter` calls keep what one call with the conjunction keeps. */
  lemma {:induction false} FilterFilter<T>(s: seq<T>, p: T -> bool, q: T -> bool)
    ensures Filter(Filter(s, p), q) == Filter(s, x => p(x) && q(x))
    decreases |s|
  {
    if s != [] {
      FilterFilter(s[1..], p, q);
      var head := if p(s[0]) then [s[0]] else [];
      assert Filter(s, p) == head + Filter(s[1..], p);
      FilterAppend(head, Filter(s[1..], p), q);
    }
  }

  lemma {:induction false} FilterAppend<T>(a: seq<T>, b: seq<T>, p: T -> bool)
    ensures Filter(a + b, p) == Filter(a, p) + Filter(b, p)
    decreases |a|
  {
    if a != [] {
      assert (a + b)[0] == a[0] && (a + b)[1..] == a[1..] + b;
      FilterAppend(a[1..], b, p);
      var head := if p(a[0]) then [a[0]] else [];
      calc {
        Filter(a + b, p);
        head + Filter(a[1..] + b, p);
        head + (Filter(a[1..], p) + Filter(b, p));
        (head + Filter(a[1..], p)) + Filter(b, p);
        Filter(a, p) + Filter(b, p);
      }
    } else {
      assert a + b == b;
    }
  }

  /** A filter whose predicate holds of every element keeps the list as it is. */
  lemma {:induction false} FilterKeepsAll<T>(s: seq<T>, p: T -> bool)
    requires forall i :: 0 <= i < |s| ==> p(s[i])
    ensures Filter(s, p) == s
    decreases |s|
  {
    if s != [] {
      FilterKeepsAll(s[1..], p);
    }
  }

  /** `if (active) filtered = filtered.filter(p)`: a step that is switched off keeps the
      list, which is what a filter passing everything does. */
  function When<T>(s: seq<T>, active: bool, p: T -> bool): (r: seq<T>)
    ensures r == Filter(s, x => !active || p(x))
  {
    if active then
      FilterCongruent(s, p, x => !active || p(x));
      Filter(s, p)
    else
      FilterKeepsAll(s, x => !active || p(x));
      s
  }

  /** Two optional filter steps keep what one filter with the combined condition keeps. */
  lemma WhenTwice<T>(s: seq<T>, a1: bool, p1: T -> bool, a2: bool, p2: T -> bool, shown: T -> bool)
    requires forall x :: shown(x) == ((!a1 || p1(x)) && (!a2 || p2(x)))
    ensures When(When(s, a1, p1), a2, p2) == Filter(s, shown)
  {
    var q1 := x => !a1 || p1(x);
    var q2 := x => !a2 || p2(x);
    FilterFilter(s, q1, q2);
    FilterCongruent(s, x => q1(x) && q2(x), shown);
  }

  /** The same for three steps. */
  lemma WhenThrice<T>(s: seq<T>, a1: bool, p1: T -> bool, a2: bool, p2: T -> bool, a3: bool, p3: T -> bool,
                      shown: T -> bool)
    requires forall x :: shown(x) == ((!a1 || p1(x)) && (!a2 || p2(x)) && (!a3 || p3(x)))
    ensures When(When(When(s, a1, p1), a2, p2), a3, p3) == Filter(s, shown)
  {
    var both := x => (!a1 || p1(x)) && (!a2 || p2(x));
    WhenTwice(s, a1, p1, a2, p2, both);
    var q3 := x => !a3 || p3(x);
    FilterFilter(s, both, q3);
    FilterCongruent(s, x => both(x) && q3(x), shown);
  }

  /** And for four. */
  lemma WhenFourTimes<T>(s: seq<T>, a1: bool, p1: T -> bool, a2: bool, p2: T -> bool, a3: bool, p3: T -> bool,
                         a4: bool, p4: T -> bool, shown: T -> bool)
    requires forall x :: shown(x) == ((!a1 || p1(x)) && (!a2 || p2(x)) && (!a3 || p3(x)) && (!a4 || p4(x)))
    ensures When(When(When(When(s, a1, p1), a2, p2), a3, p3), a4, p4) == Filter(s, shown)
  {
    var three := x => (!a1 || p1(x)) && (!a2 || p2(x)) && (!a3 || p3(x));
    WhenThrice(s, a1, p1, a2, p2, a3, p3, three);
    var q4 := x => !a4 || p4(x);
    FilterFilter(s, three, q4);
    FilterCongruent(s, x => three(x) && q4(x), shown);
  }

  /** `s.filter(p).length` */
  function Count<T>(s: seq<T>, p: T -> bool): nat
  {
    |Filter(s, p)|
  }

  /** Nothing is counted when no element qualifies. */
  lemma {:induction false} CountNone<T>(s: seq<T>, p: T -> bool)
    requires forall i :: 0 <= i < |s| ==> !p(s[i])
    ensures Count(s, p) == 0
    decreases |s|
  {
    if s != [] {
      CountNone(s[1..], p);
    }
  }

  lemma {:induction false} CountDisjoint<T>(s: seq<T>, p: T -> bool, q: T -> bool)
    requires forall i :: 0 <= i < |s| ==> !(p(s[i]) && q(s[i]))
    ensures Count(s, p) + Count(s, q) <= |s|
    decreases |s|
  {
    if s != [] {
      CountDisjoint(s[1..], p, q);
    }
  }

  /** Whether `a` may come before `b` in a list ordered by `key`. */
  predicate InOrder<T>(a: T, b: T, key: T -> int, descending: bool)
  {
    if descending then key(a) >= key(b) else key(a) <= key(b)
  }

  ghost predicate SortedBy<T>(s: seq<T>, key: T -> int, descending: bool)
  {
    forall i, j :: 0 <= i < j < |s| ==> InOrder(s[i], s[j], key, descending)
  }

  function Insert<T>(x: T, s: seq<T>, key: T -> int, descending: bool): (r: seq<T>)
    requires SortedBy(s, key, descending)
    ensures SortedBy(r, key, descending)
    ensures multiset(r) == multiset(s) + multiset{x}
    ensures forall i :: 0 <= i < |r| ==> r[i] == x || r[i] in s
    decreases |s|
  {
    if s == [] || InOrder(x, s[0], key, descending) then
      [x] + s
    else
      var tail := Insert(x, s[1..], key, descending);
      InsertBehind(s[0], x, s[1..], tail, key, descending);
      assert s == [s[0]] + s[1..];
      [s[0]] + tail
  }

  lemma InsertBehind<T>(h: T, x: T, s: seq<T>, tail: seq<T>, key: T -> int, descending: bool)
    requires !InOrder(x, h, key, descending)
    requires forall i :: 0 <= i < |s| ==> InOrder(h, s[i], key, descending)
    requires SortedBy(tail, key, descending)
    requires forall i :: 0 <= i < |tail| ==> tail[i] == x || tail[i] in s
    ensures SortedBy([h] + tail, key, descending)
  {
    forall j | 0 <= j < |tail| ensures InOrder(h, tail[j], key, descending) {
      if tail[j] != x {
        var k :| 0 <= k < |s| && s[k] == tail[j];
      }
    }
    var r := [h] + tail;
    forall i, j | 0 <= i < j < |r| ensures InOrder(r[i], r[j], key, descending) {
      if i > 0 {
        assert r[i] == tail[i - 1] && r[j] == tail[j - 1];
      } else {
        assert r[j] == tail[j - 1];
      }
    }
  }

  /** The rows of a `findMany` with `orderBy: { key: 'asc' | 'desc' }`: the same rows, in key order. */
  function SortBy<T>(s: seq<T>, key: T -> int, descending: bool): (r: seq<T>)
    ensures SortedBy(r, key, descending)
    ensures multiset(r) == multiset(s)
    ensures |r| == |s|
    decreases |s|
  {
    if s == [] then []
    else
      assert s == [s[0]] + s[1..];
      Insert(s[0], SortBy(s[1..], key, descending), key, descending)
  }

  function Min(a: int, b: int): int
  {
    if a < b then a else b
  }

  /** `take: n` on a query: at most the first `n` rows; no limit keeps them all. */
  function Take<T>(s: seq<T>, n: Option<nat>): (r: seq<T>)
    ensures n.None? ==> r == s
    ensures n.Some? ==> |r| == if n.value < |s| then n.value else |s|
    ensures r <= s
  {
    if n.None? || n.value >= |s| then s else s[..n.value]
  }

  /** A prefix of an ordered list is ordered. */
  lemma TakeSorted<T>(s: seq<T>, n: Option<nat>, key: T -> int, descending: bool)
    requires SortedBy(s, key, descending)
    ensures SortedBy(Take(s, n), key, descending)
  {
    var r := Take(s, n);
    assert forall i :: 0 <= i < |r| ==> r[i] == s[i];
  }

  /** `findMany({ where: p, orderBy: key, take: n })`: the rows that match, in key order,
      at most `n` of them. */
  function Select<T>(s: seq<T>, p: T -> bool, key: T -> int, descending: bool, n: Option<nat>): (r: seq<T>)
    ensures forall i :: 0 <= i < |r| ==> r[i] in s && p(r[i])
    ensures SortedBy(r, key, descending)
    ensures n.None? ==> multiset(r) == multiset(Filter(s, p))
    ensures n.Some? ==> |r| == if n.value < Count(s, p) then n.value else Count(s, p)
  {
    var matching := Filter(s, p);
    var ordered := SortBy(matching, key, descending);
    TakeSorted(ordered, n, key, descending);
    var r := Take(ordered, n);
    forall i | 0 <= i < |r| ensures r[i] in s && p(r[i]) {
      assert r[i] == ordered[i];
      assert r[i] in multiset(matching);
    }
    r
  }

  /** A prefix of an ordered list holds some of its rows, and every row it leaves out comes
      no earlier in the order than any row it keeps. */
  lemma TakeKeepsFirst<T>(s: seq<T>, n: Option<nat>, key: T -> int, descending: bool)
    requires SortedBy(s, key, descending)
    ensures multiset(Take(s, n)) <= multiset(s)
    ensures forall i, x :: 0 <= i < |Take(s, n)| && x in multiset(s) - multiset(Take(s, n)) ==>
              InOrder(Take(s, n)[i], x, key, descending)
  {
    var r := Take(s, n);
    if r != s {
      var k := |r|;
      assert r == s[..k];
      assert s == s[..k] + s[k..];
      assert multiset(s) == multiset(r) + multiset(s[k..]);
      forall i, x | 0 <= i < k && x in multiset(s) - multiset(r) ensures InOrder(r[i], x, key, descending) {
        assert x in multiset(s[k..]);
        var j :| 0 <= j < |s[k..]| && s[k..][j] == x;
        assert s[k + j] == x && r[i] == s[i];
      }
    }
  }

  /** With a `take`, the rows a selection keeps are the first in key order: it keeps matching
      rows only, and every matching row it leaves out comes no earlier than any row it keeps. */
  lemma SelectKeepsFirst<T>(s: seq<T>, p: T -> bool, key: T -> int, descending: bool, n: Option<nat>)
    ensures multiset(Select(s, p, key, descending, n)) <= multiset(Filter(s, p))
    ensures var r := Select(s, p, key, descending, n);
            forall i, x :: 0 <= i < |r| && x in multiset(Filter(s, p)) - multiset(r) ==> InOrder(r[i], x, key, descending)
  {
    TakeKeepsFirst(SortBy(Filter(s, p), key, descending), n, key, descending);
  }

  /** Filters that agree on every element keep the same elements. */
  lemma {:induction false} FilterCongruent<T>(s: seq<T>, p: T -> bool, q: T -> bool)
    requires forall i :: 0 <= i < |s| ==> p(s[i]) == q(s[i])
    ensures Filter(s, p) == Filter(s, q)
    decreases |s|
  {
    if s != [] {
      FilterCongruent(s[1..], p, q);
    }
  }

  lemma SelectCongruent<T>(s: seq<T>, p: T -> bool, q: T -> bool, key: T -> int, descending: bool, n: Option<nat>)
    requires forall i :: 0 <= i < |s| ==> p(s[i]) == q(s[i])
    ensures Select(s, p, key, descending, n) == Select(s, q, key, descending, n)
  {
    FilterCongruent(s, p, q);
  }

  /** `s.map(f)` */
  function Map<A, B>(s: seq<A>, f: A -> B): (r: seq<B>)
    ensures |r| == |s|
    ensures forall i :: 0 <= i < |s| ==> r[i] == f(s[i])
  {
    seq(|s|, i requires 0 <= i < |s| => f(s[i]))
  }

  /** `s.filter((_, i) => i !== index)`: every element except the one at `index`, in order. */
  function WithoutIndex<T>(s: seq<T>, index: int): (r: seq<T>)
    ensures 0 <= index < |s| ==> |r| == |s| - 1 && r == s[..index] + s[index + 1..]
    ensures !(0 <= index < |s|) ==> r == s
  {
    if 0 <= index < |s| then s[..index] + s[index + 1..] else s
  }

  /** Taking out the element at `k` removes one copy of it and at most one counted element. */
  lemma RemoveAt<T>(b: seq<T>, k: nat, p: T -> bool)
    requires k < |b|
    ensures multiset(b) == multiset(b[..k] + b[k + 1..]) + multiset{b[k]}
    ensures Count(b, p) == Count(b[..k] + b[k + 1..], p) + (if p(b[k]) then 1 else 0)
  {
    assert b == b[..k] + [b[k]] + b[k + 1..];
    assert multiset(b) == multiset(b[..k]) + multiset([b[k]]) + multiset(b[k + 1..]);
    assert multiset(b[..k] + b[k + 1..]) == multiset(b[..k]) + multiset(b[k + 1..]);
    assert b == b[..k] + ([b[k]] + b[k + 1..]);
    FilterAppend(b[..k], [b[k]] + b[k + 1..], p);
    FilterAppend([b[k]], b[k + 1..], p);
    FilterAppend(b[..k], b[k + 1..], p);
    assert Filter([b[k]], p) == (if p(b[k]) then [b[k]] else []) + Filter([b[k]][1..], p);
  }

  /** Counting does not depend on the order: a permutation has the same count. */
  lemma {:induction false} CountPermutation<T>(a: seq<T>, b: seq<T>, p: T -> bool)
    requires multiset(a) == multiset(b)
    ensures Count(a, p) == Count(b, p)
    decreases |a|
  {
    if a == [] {
      assert |b| == |multiset(b)| == 0;
    } else {
      var x := a[0];
      assert x in multiset(b);
      var k :| 0 <= k < |b| && b[k] == x;
      RemoveAt(b, k, p);
      assert a == [x] + a[1..];
      assert multiset(a) == multiset(a[1..]) + multiset{x};
      var b' := b[..k] + b[k + 1..];
      forall y ensures multiset(a[1..])[y] == multiset(b')[y] {
        assert multiset(a)[y] == multiset(a[1..])[y] + multiset{x}[y];
        assert multiset(b)[y] == multiset(b')[y] + multiset{x}[y];
      }
      assert multiset(a[1..]) == multiset(b');
      CountPermutation(a[1..], b[..k] + b[k + 1..], p);
      assert Filter(a, p) == (if p(x) then [x] else []) + Filter(a[1..], p);
    }
  }
}
