/** Sorting with a comparator, as `Array.prototype.sort` promises it: stable, and sorted when
    the comparator is consistent on the elements at hand. */
module Sorting {

  /** `localeCompare`: some total order of strings. */
  type Locale = (string, string) -> real

  ghost predicate IsLocale(lc: Locale) {
    && (forall a, b :: lc(a, b) == 0.0 <==> a == b)
    && (forall a, b :: lc(a, b) <= 0.0 <==> lc(b, a) >= 0.0)
    && (forall a, b, c :: lc(a, b) <= 0.0 && lc(b, c) <= 0.0 ==> lc(a, c) <= 0.0)
  }

  /** The comparator's answers are mirrored and never go round in a circle. */
  ghost predicate ConsistentOn<T(!new)>(cmp: (T, T) -> real, s: seq<T>) {
    && (forall x, y :: x in s && y in s ==> (cmp(x, y) <= 0.0 <==> cmp(y, x) >= 0.0))
    && (forall x, y, z :: x in s && y in s && z in s && cmp(x, y) <= 0.0 && cmp(y, z) <= 0.0 ==> cmp(x, z) <= 0.0)
  }

  ghost predicate Sorted<T>(cmp: (T, T) -> real, s: seq<T>) {
    forall i, j :: 0 <= i < j < |s| ==> cmp(s[i], s[j]) <= 0.0
  }

  ghost predicate Permutes<T>(a: seq<T>, b: seq<T>) {
    multiset(a) == multiset(b)
  }

  /** Put `x` behind everything that may stand before it. */
  function Insert<T>(cmp: (T, T) -> real, s: seq<T>, x: T): seq<T> {
    if s == [] then [x]
    else if cmp(s[|s| - 1], x) <= 0.0 then s + [x]
    else Insert(cmp, s[..|s| - 1], x) + [s[|s| - 1]]
  }

  function SortBy<T>(cmp: (T, T) -> real, s: seq<T>): seq<T> {
    if s == [] then [] else Insert(cmp, SortBy(cmp, s[..|s| - 1]), s[|s| - 1])
  }

  lemma {:induction false} InsertPermutes<T>(cmp: (T, T) -> real, s: seq<T>, x: T)
    ensures Permutes(Insert(cmp, s, x), s + [x])
  {
    if s != [] && !(cmp(s[|s| - 1], x) <= 0.0) {
      InsertPermutes(cmp, s[..|s| - 1], x);
      assert s == s[..|s| - 1] + [s[|s| - 1]];
    }
  }

  lemma {:induction false} SortPermutes<T>(cmp: (T, T) -> real, s: seq<T>)
    ensures Permutes(SortBy(cmp, s), s)
  {
    if s != [] {
      SortPermutes(cmp, s[..|s| - 1]);
      InsertPermutes(cmp, SortBy(cmp, s[..|s| - 1]), s[|s| - 1]);
      assert s == s[..|s| - 1] + [s[|s| - 1]];
    }
  }

  lemma SameElements<T>(a: seq<T>, b: seq<T>)
    requires Permutes(a, b)
    ensures forall x :: x in a <==> x in b
  {
    assert forall x :: x in a <==> x in multiset(a);
    assert forall x :: x in b <==> x in multiset(b);
  }

  ghost predicate NoneAfter<T>(cmp: (T, T) -> real, s: seq<T>, x: T) {
    forall i :: 0 <= i < |s| ==> cmp(s[i], x) <= 0.0
  }

  lemma AppendSorted<T>(cmp: (T, T) -> real, s: seq<T>, x: T)
    requires Sorted(cmp, s) && NoneAfter(cmp, s, x)
    ensures Sorted(cmp, s + [x])
  {
  }

  lemma NoneAfterLast<T(!new)>(cmp: (T, T) -> real, s: seq<T>, x: T)
    requires s != [] && Sorted(cmp, s) && ConsistentOn(cmp, s + [x]) && cmp(s[|s| - 1], x) <= 0.0
    ensures NoneAfter(cmp, s, x)
  {
    forall i | 0 <= i < |s| ensures cmp(s[i], x) <= 0.0 {
      assert s[i] in s + [x] && s[|s| - 1] in s + [x] && x in s + [x];
      assert i < |s| - 1 ==> cmp(s[i], s[|s| - 1]) <= 0.0;
    }
  }

  /** `x` is placed among elements that may all stand before `last`. */
  lemma PlacedBefore<T(!new)>(cmp: (T, T) -> real, front: seq<T>, last: T, x: T)
    requires cmp(x, last) <= 0.0 && NoneAfter(cmp, front, last)
    ensures NoneAfter(cmp, Insert(cmp, front, x), last)
  {
    var placed := Insert(cmp, front, x);
    InsertPermutes(cmp, front, x);
    SameElements(placed, front + [x]);
    forall i | 0 <= i < |placed| ensures cmp(placed[i], last) <= 0.0 {
      assert placed[i] in front + [x];
    }
  }

  lemma {:induction false} InsertSorts<T(!new)>(cmp: (T, T) -> real, s: seq<T>, x: T)
    requires Sorted(cmp, s) && ConsistentOn(cmp, s + [x])
    ensures Sorted(cmp, Insert(cmp, s, x))
  {
    if s != [] {
      var front, last := s[..|s| - 1], s[|s| - 1];
      if cmp(last, x) <= 0.0 {
        NoneAfterLast(cmp, s, x);
        AppendSorted(cmp, s, x);
      } else {
        assert last in s + [x] && x in s + [x] && cmp(x, last) <= 0.0;
        ConsistentOnFewer(cmp, s + [x], front + [x]);
        InsertSorts(cmp, front, x);
        PlacedBefore(cmp, front, last, x);
        AppendSorted(cmp, Insert(cmp, front, x), last);
      }
    }
  }

  lemma ConsistentOnFewer<T(!new)>(cmp: (T, T) -> real, s: seq<T>, t: seq<T>)
    requires ConsistentOn(cmp, s) && forall y :: y in t ==> y in s
    ensures ConsistentOn(cmp, t)
  {
  }

  /** With a consistent comparator, the sort sorts. */
  lemma {:induction false} SortSorts<T(!new)>(cmp: (T, T) -> real, s: seq<T>)
    requires ConsistentOn(cmp, s)
    ensures Sorted(cmp, SortBy(cmp, s))
  {
    if s != [] {
      var front, last := s[..|s| - 1], s[|s| - 1];
      assert s == front + [last];
      ConsistentOnFewer(cmp, s, front);
      SortSorts(cmp, front);
      SortPermutes(cmp, front);
      SameElements(SortBy(cmp, front), front);
      ConsistentOnFewer(cmp, s, SortBy(cmp, front) + [last]);
      InsertSorts(cmp, SortBy(cmp, front), last);
    }
  }

  // ----------------------------------------------------------------- stability

  function Select<T>(s: seq<T>, keep: T -> bool): seq<T> {
    if s == [] then []
    else Select(s[..|s| - 1], keep) + (if keep(s[|s| - 1]) then [s[|s| - 1]] else [])
  }

  function LevelWith<T>(cmp: (T, T) -> real, x: T): T -> bool {
    (y: T) => cmp(x, y) == 0.0
  }

  /** Elements that the comparator cannot tell apart keep their order. */
  ghost predicate KeepsTies<T(!new)>(cmp: (T, T) -> real, s: seq<T>, out: seq<T>) {
    forall x :: x in s ==> Select(out, LevelWith(cmp, x)) == Select(s, LevelWith(cmp, x))
  }

  lemma {:induction false} InsertKeepsOrder<T(!new)>(cmp: (T, T) -> real, s: seq<T>, x: T, keep: T -> bool)
    requires forall y :: y in s && keep(y) && keep(x) ==> cmp(y, x) <= 0.0
    ensures Select(Insert(cmp, s, x), keep) == Select(s, keep) + (if keep(x) then [x] else [])
  {
    if s == [] {
      assert [x][..0] == [];
    } else if cmp(s[|s| - 1], x) <= 0.0 {
      assert (s + [x])[..|s|] == s;
    } else {
      var front, last := s[..|s| - 1], s[|s| - 1];
      InsertKeepsOrder(cmp, front, x, keep);
      var placed := Insert(cmp, front, x);
      assert (placed + [last])[..|placed|] == placed;
      assert last in s;
    }
  }

  lemma {:induction false} SortKeepsOrder<T(!new)>(cmp: (T, T) -> real, s: seq<T>, keep: T -> bool)
    requires forall x, y :: x in s && y in s && keep(x) && keep(y) ==> cmp(x, y) <= 0.0
    ensures Select(SortBy(cmp, s), keep) == Select(s, keep)
  {
    if s != [] {
      var front, last := s[..|s| - 1], s[|s| - 1];
      SortKeepsOrder(cmp, front, keep);
      SortPermutes(cmp, front);
      SameElements(SortBy(cmp, front), front);
      forall y | y in SortBy(cmp, front) && keep(y) && keep(last) ensures cmp(y, last) <= 0.0 {
        assert y in front && y in s && last in s;
      }
      InsertKeepsOrder(cmp, SortBy(cmp, front), last, keep);
    }
  }

  lemma SortKeepsTies<T(!new)>(cmp: (T, T) -> real, s: seq<T>)
    requires ConsistentOn(cmp, s)
    ensures KeepsTies(cmp, s, SortBy(cmp, s))
  {
    forall x | x in s ensures Select(SortBy(cmp, s), LevelWith(cmp, x)) == Select(s, LevelWith(cmp, x)) {
      forall a, b | a in s && b in s && LevelWith(cmp, x)(a) && LevelWith(cmp, x)(b) ensures cmp(a, b) <= 0.0 {
        assert cmp(a, x) <= 0.0 && cmp(x, b) <= 0.0;
      }
      SortKeepsOrder(cmp, s, LevelWith(cmp, x));
    }
  }

  lemma {:induction false} InsertSame<T(!new)>(cmp: (T, T) -> real, same: (T, T) -> real, s: seq<T>, x: T)
    requires forall a, b :: cmp(a, b) == same(a, b)
    ensures Insert(cmp, s, x) == Insert(same, s, x)
  {
    if s != [] {
      InsertSame(cmp, same, s[..|s| - 1], x);
    }
  }

  /** Only the comparator's answers matter. */
  lemma {:induction false} SortSame<T(!new)>(cmp: (T, T) -> real, same: (T, T) -> real, s: seq<T>)
    requires forall a, b :: cmp(a, b) == same(a, b)
    ensures SortBy(cmp, s) == SortBy(same, s)
  {
    if s != [] {
      SortSame(cmp, same, s[..|s| - 1]);
      InsertSame(cmp, same, SortBy(cmp, s[..|s| - 1]), s[|s| - 1]);
    }
  }

  // ---------------------------------------------------------- under permutation

  function SumOf<T>(f: T -> real, s: seq<T>): real {
    if s == [] then 0.0 else SumOf(f, s[..|s| - 1]) + f(s[|s| - 1])
  }

  lemma {:induction false} SumOfTwo<T>(f: T -> real, a: seq<T>, b: seq<T>)
    ensures SumOf(f, a + b) == SumOf(f, a) + SumOf(f, b)
  {
    if b == [] {
      assert a + b == a;
    } else {
      assert (a + b)[..|a + b| - 1] == a + b[..|b| - 1];
      SumOfTwo(f, a, b[..|b| - 1]);
    }
  }

  lemma SumWithout<T>(f: T -> real, s: seq<T>, k: nat)
    requires k < |s|
    ensures SumOf(f, s) == SumOf(f, s[..k] + s[k + 1..]) + f(s[k])
  {
    assert s == (s[..k] + [s[k]]) + s[k + 1..];
    assert (s[..k] + [s[k]])[..k] == s[..k];
    SumOfTwo(f, s[..k] + [s[k]], s[k + 1..]);
    SumOfTwo(f, s[..k], s[k + 1..]);
  }

  lemma MultisetWithout<T>(s: seq<T>, k: nat)
    requires k < |s|
    ensures multiset(s[..k] + s[k + 1..]) == multiset(s) - multiset{s[k]}
  {
    assert s == s[..k] + [s[k]] + s[k + 1..];
  }

  lemma {:induction false} SumPermutes<T>(f: T -> real, a: seq<T>, b: seq<T>)
    requires Permutes(a, b)
    ensures SumOf(f, a) == SumOf(f, b)
    decreases |a|
  {
    if a == [] {
      assert |multiset(b)| == 0;
    } else {
      var front, last := a[..|a| - 1], a[|a| - 1];
      SameElements(a, b);
      assert last in a;
      var k :| 0 <= k < |b| && b[k] == last;
      MultisetWithout(a, |a| - 1);
      assert front + a[|a|..] == front;
      MultisetWithout(b, k);
      SumPermutes(f, front, b[..k] + b[k + 1..]);
      SumWithout(f, b, k);
    }
  }

  lemma TwiceInMultiset<T>(s: seq<T>, i: nat, j: nat)
    requires i < j < |s| && s[i] == s[j]
    ensures multiset(s)[s[i]] >= 2
  {
    assert s == s[..j] + [s[j]] + s[j + 1..];
    assert s[..j][i] == s[i];
    assert s[i] in multiset(s[..j]);
  }
}
