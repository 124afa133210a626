/** The interval arithmetic of GTIDSetUnion (internal/database/mysql/api.go) and the ordering of
    sort.go: merging a sorted list keeps the numbers it covers and gives the one normal form. */
module Intervals {
  import opened Text
  import opened Sorting

  type Number = n: nat | n <= MAX_INT64

  datatype Interval = Interval(lo: Number, hi: Number)

  /** ArraySlice.Less. */
  predicate Less(a: Interval, b: Interval) {
    if a.lo < b.lo then true
    else if a.lo > b.lo then false
    else a.hi < b.hi
  }

  /** The order by which ArraySlice sorts: total, so that sorting has one result. */
  predicate InOrder(a: Interval, b: Interval) {
    !Less(b, a)
  }

  lemma InOrderIsTotal()
    ensures TotalOrder(InOrder)
    ensures forall a, b :: InOrder(a, b) <==> a.lo < b.lo || (a.lo == b.lo && a.hi <= b.hi)
  {
    assert forall a, b :: InOrder(a, b) && InOrder(b, a) ==> a == b;
  }

  ghost predicate Covers(s: seq<Interval>, n: nat) {
    exists i :: 0 <= i < |s| && s[i].lo <= n <= s[i].hi
  }

  /** Go's `x + 1` on a 64-bit int. */
  function Next(x: Number): int {
    if x == MAX_INT64 then MIN_INT64 else x + 1
  }

  /** One turn of the merge loop. */
  function MergeInto(acc: seq<Interval>, v: Interval): seq<Interval> {
    if acc != [] && v.lo <= Next(acc[|acc| - 1].hi) then
      var last := acc[|acc| - 1];
      if last.hi < v.hi then acc[..|acc| - 1] + [Interval(last.lo, v.hi)] else acc
    else
      acc + [v]
  }

  function Merge(s: seq<Interval>): seq<Interval> {
    if s == [] then [] else MergeInto(Merge(s[..|s| - 1]), s[|s| - 1])
  }

  function Normalize(s: seq<Interval>): seq<Interval> {
    Merge(Sort(s, InOrder))
  }

  /** The merge loop as the source runs it: append, or edit the last interval in place. */
  method MergeIntervals(s: seq<Interval>) returns (merged: seq<Interval>)
    ensures merged == Merge(s)
  {
    merged := [];
    for i := 0 to |s|
      invariant merged == Merge(s[..i])
    {
      var v := s[i];
      assert s[..i + 1][..i] == s[..i];
      var n := |merged|;
      if n > 0 && v.lo <= Next(merged[n - 1].hi) {
        if merged[n - 1].hi < v.hi {
          merged := merged[n - 1 := merged[n - 1].(hi := v.hi)];
        }
      } else {
        merged := merged + [v];
      }
    }
    assert s[..|s|] == s;
  }

  // ---------------------------------------------------------------- what is covered

  lemma MergeIntoCovers(acc: seq<Interval>, v: Interval, n: nat)
    requires acc != [] ==> acc[|acc| - 1].lo <= v.lo
    ensures Covers(MergeInto(acc, v), n) <==> Covers(acc, n) || v.lo <= n <= v.hi
  {
    var m := MergeInto(acc, v);
    if acc != [] && v.lo <= Next(acc[|acc| - 1].hi) {
      var k := |acc| - 1;
      assert forall i | 0 <= i < k :: m[i] == acc[i];
      assert m[k].lo <= n <= m[k].hi <==> acc[k].lo <= n <= acc[k].hi || v.lo <= n <= v.hi;
    } else {
      assert forall i | 0 <= i < |acc| :: m[i] == acc[i];
      assert m[|acc|] == v;
    }
  }

  lemma CoversLast(s: seq<Interval>, n: nat)
    requires s != []
    ensures var k := |s| - 1; Covers(s, n) <==> Covers(s[..k], n) || s[k].lo <= n <= s[k].hi
  {
    assert forall i | 0 <= i < |s| - 1 :: s[..|s| - 1][i] == s[i];
  }

  lemma MergeIntoLast(acc: seq<Interval>, v: Interval)
    requires acc != [] ==> acc[|acc| - 1].lo <= v.lo
    ensures var m := MergeInto(acc, v); m != [] && m[|m| - 1].lo <= v.lo
  {
  }

  /** The last merged interval starts no later than the last one read. */
  lemma {:induction false} MergeLast(s: seq<Interval>)
    requires Sorted(s, InOrder)
    ensures s != [] ==> Merge(s) != [] && Merge(s)[|Merge(s)| - 1].lo <= s[|s| - 1].lo
  {
    if s == [] {
    } else {
      var k := |s| - 1;
      MergeLast(s[..k]);
      assert k > 0 ==> s[..k][k - 1] == s[k - 1] && InOrder(s[k - 1], s[k]);
      MergeIntoLast(Merge(s[..k]), s[k]);
    }
  }

  lemma {:induction false} MergeCovers(s: seq<Interval>, n: nat)
    requires Sorted(s, InOrder)
    ensures Covers(Merge(s), n) <==> Covers(s, n)
  {
    if s == [] {
    } else {
      var k := |s| - 1;
      MergeCovers(s[..k], n);
      MergeLast(s[..k]);
      assert k > 0 ==> InOrder(s[k - 1], s[k]);
      MergeIntoCovers(Merge(s[..k]), s[k], n);
      CoversLast(s, n);
    }
  }

  lemma CoversPermuted(a: seq<Interval>, b: seq<Interval>, n: nat)
    requires forall x | x in a :: x in b
    requires Covers(a, n)
    ensures Covers(b, n)
  {
    var i :| 0 <= i < |a| && a[i].lo <= n <= a[i].hi;
    assert a[i] in b;
  }

  /** Normalizing keeps the covered numbers, whatever the intervals. */
  lemma NormalizeCovers(s: seq<Interval>, n: nat)
    ensures Covers(Normalize(s), n) <==> Covers(s, n)
  {
    InOrderIsTotal();
    SortSorts(s, InOrder);
    SortMembers(s, InOrder);
    MergeCovers(Sort(s, InOrder), n);
    if Covers(s, n) {
      CoversPermuted(s, Sort(s, InOrder), n);
    }
    if Covers(Sort(s, InOrder), n) {
      CoversPermuted(Sort(s, InOrder), s, n);
    }
  }

  // ---------------------------------------------------------------- the normal form

  /** Nonempty intervals in increasing order, with at least one number missing between any two. */
  ghost predicate NormalForm(s: seq<Interval>) {
    && (forall i | 0 <= i < |s| :: s[i].lo <= s[i].hi)
    && (forall i, j | 0 <= i < j < |s| :: s[i].hi + 1 < s[j].lo)
  }

  /** Intervals as GTIDs have them: from 1 up to 2^63 - 2 in MySQL, so `hi + 1` does not overflow. */
  ghost predicate Proper(s: seq<Interval>) {
    forall x | x in s :: x.lo <= x.hi < MAX_INT64
  }

  lemma MergeIntoNormal(acc: seq<Interval>, v: Interval)
    requires NormalForm(acc) && Proper(acc) && v.lo <= v.hi < MAX_INT64
    requires acc != [] ==> acc[|acc| - 1].lo <= v.lo
    ensures NormalForm(MergeInto(acc, v)) && Proper(MergeInto(acc, v)) && MergeInto(acc, v) != []
  {
    hide NormalForm, Proper;
    if acc == [] {
      NormalSnoc(acc, v);
      assert acc + [v] == [v];
    } else {
      var k := |acc| - 1;
      NormalFront(acc);
      NormalSnoc(acc[..k], Interval(acc[k].lo, if acc[k].hi < v.hi then v.hi else acc[k].hi));
      if v.lo > acc[k].hi + 1 {
        NormalSnoc(acc, v);
      }
    }
  }

  lemma NormalSnoc(acc: seq<Interval>, v: Interval)
    requires NormalForm(acc) && Proper(acc) && v.lo <= v.hi < MAX_INT64
    requires acc != [] ==> acc[|acc| - 1].hi + 1 < v.lo
    ensures NormalForm(acc + [v]) && Proper(acc + [v])
  {
    forall i | 0 <= i < |acc| ensures acc[i].hi + 1 < v.lo {
      assert i < |acc| - 1 ==> acc[i].hi + 1 < acc[|acc| - 1].lo;
      assert acc[|acc| - 1].lo <= acc[|acc| - 1].hi;
    }
  }

  lemma NormalFront(acc: seq<Interval>)
    requires NormalForm(acc) && Proper(acc) && acc != []
    ensures var k := |acc| - 1;
            && NormalForm(acc[..k]) && Proper(acc[..k]) && acc[k].lo <= acc[k].hi < MAX_INT64
            && (k > 0 ==> acc[k - 1].hi + 1 < acc[k].lo)
  {
    assert acc[|acc| - 1] in acc;
  }

  lemma {:induction false} MergeNormal(s: seq<Interval>)
    requires Sorted(s, InOrder) && Proper(s)
    ensures NormalForm(Merge(s)) && Proper(Merge(s)) && (s != [] ==> Merge(s) != [])
  {
    if s == [] {
    } else {
      var k := |s| - 1;
      MergeNormal(s[..k]);
      MergeLast(s[..k]);
      assert k > 0 ==> InOrder(s[k - 1], s[k]);
      assert s[k] in s;
      MergeIntoNormal(Merge(s[..k]), s[k]);
    }
  }

  lemma NormalizeNormal(s: seq<Interval>)
    requires Proper(s)
    ensures NormalForm(Normalize(s)) && Proper(Normalize(s)) && (s != [] ==> Normalize(s) != [])
  {
    InOrderIsTotal();
    SortSorts(s, InOrder);
    SortMembers(s, InOrder);
    MergeNormal(Sort(s, InOrder));
  }

  // ---------------------------------------------------------------- where the sum overflows

  /** Every interval that ends with the largest number occurs once and comes after all others. */
  ghost predicate TopIsLast(s: seq<Interval>) {
    forall x | x in s && x.hi == MAX_INT64 :: multiset(s)[x] == 1 && forall y | y in s && y != x :: Less(y, x)
  }

  /** Of a sorted sequence only the last interval ends with the largest number. */
  ghost predicate RestBelowTop(s: seq<Interval>) {
    forall k | 0 <= k < |s| - 1 :: s[k].hi < MAX_INT64
  }

  lemma TopIsAlone(s: seq<Interval>, k: nat)
    requires Sorted(s, InOrder) && TopIsLast(s) && k < |s| - 1
    ensures s[k].hi < MAX_INT64
  {
    hide Less;
    assert InOrder(s[k], s[k + 1]);
    if s[k] == s[k + 1] {
      Twice(s, k);
    }
  }

  lemma Twice(s: seq<Interval>, k: nat)
    requires k < |s| - 1 && s[k] == s[k + 1]
    ensures multiset(s)[s[k]] >= 2
  {
    assert s == s[..k] + [s[k], s[k + 1]] + s[k + 2..];
  }

  lemma RestIsBefore(s: seq<Interval>, k: nat)
    requires Sorted(s, InOrder) && RestBelowTop(s) && k < |s| - 1 && s[|s| - 1].hi == MAX_INT64
    ensures Less(s[k], s[|s| - 1])
  {
    assert InOrder(s[k], s[|s| - 1]);
  }

  lemma LastIsOnce(s: seq<Interval>)
    requires RestBelowTop(s) && s != [] && s[|s| - 1].hi == MAX_INT64
    ensures multiset(s)[s[|s| - 1]] == 1
  {
    var n := |s| - 1;
    assert s == s[..n] + [s[n]];
    assert s[n] !in s[..n];
  }

  lemma TopInOrder(s: seq<Interval>)
    requires Sorted(s, InOrder)
    ensures TopIsLast(s) <==> RestBelowTop(s)
  {
    hide Sorted, Less;
    if TopIsLast(s) {
      forall k | 0 <= k < |s| - 1 ensures s[k].hi < MAX_INT64 {
        TopIsAlone(s, k);
      }
    }
    if RestBelowTop(s) {
      forall x | x in s && x.hi == MAX_INT64
        ensures multiset(s)[x] == 1 && forall y | y in s && y != x :: Less(y, x)
      {
        assert x == s[|s| - 1];
        LastIsOnce(s);
        forall y | y in s && y != x ensures Less(y, x) {
          var k :| 0 <= k < |s| && s[k] == y;
          RestIsBefore(s, k);
        }
      }
    }
  }

  /** An interval that ends with the largest number and is not the last: nothing can follow it in a
      normal form, and merging never removes it. */
  ghost predicate Overrun(acc: seq<Interval>, k: int) {
    0 <= k < |acc| && acc[k].hi == MAX_INT64
  }

  lemma OverrunStays(acc: seq<Interval>, v: Interval, k: int)
    requires Overrun(acc, k)
    ensures Overrun(MergeInto(acc, v), k)
    ensures k == |acc| - 1 ==> |MergeInto(acc, v)| == |acc| + 1
    ensures |MergeInto(acc, v)| >= |acc|
  {
  }

  lemma TopIsKept(acc: seq<Interval>, v: Interval)
    requires v.hi == MAX_INT64
    ensures Overrun(MergeInto(acc, v), |MergeInto(acc, v)| - 1)
  {
  }

  lemma {:induction false} MergeOverruns(s: seq<Interval>, i: nat) returns (k: int)
    requires i < |s| && s[i].hi == MAX_INT64
    ensures Overrun(Merge(s), k) && (i < |s| - 1 ==> k < |Merge(s)| - 1)
  {
    var n := |s| - 1;
    if i == n {
      TopIsKept(Merge(s[..n]), s[n]);
      k := |Merge(s)| - 1;
    } else {
      k := MergeOverruns(s[..n], i);
      OverrunStays(Merge(s[..n]), s[n], k);
    }
  }

  lemma MergeIntoTop(acc: seq<Interval>, v: Interval)
    requires NormalForm(acc) && Proper(acc) && v.lo <= v.hi && (acc != [] ==> acc[|acc| - 1].lo <= v.lo)
    ensures NormalForm(MergeInto(acc, v))
  {
    if acc != [] {
      NormalFront(acc);
    }
  }

  lemma MergeUpToTop(t: seq<Interval>)
    requires Sorted(t, InOrder) && RestBelowTop(t) && forall x | x in t :: x.lo <= x.hi
    ensures NormalForm(Merge(t))
  {
    hide NormalForm;
    if t == [] {
      MergeNormal(t);
    } else {
      var n := |t| - 1;
      ProperFront(t);
      MergeNormal(t[..n]);
      MergeLast(t[..n]);
      assert n > 0 ==> InOrder(t[n - 1], t[n]);
      assert t[n] in t;
      MergeIntoTop(Merge(t[..n]), t[n]);
    }
  }

  lemma ProperFront(t: seq<Interval>)
    requires t != [] && RestBelowTop(t) && forall x | x in t :: x.lo <= x.hi
    ensures Proper(t[..|t| - 1])
  {
    forall x | x in t[..|t| - 1] ensures x.lo <= x.hi < MAX_INT64 {
      var k :| 0 <= k < |t| - 1 && t[k] == x;
    }
  }

  lemma MergeBeyondTop(t: seq<Interval>)
    requires !RestBelowTop(t)
    ensures !NormalForm(Merge(t))
  {
    hide Merge;
    var i :| 0 <= i < |t| - 1 && t[i].hi == MAX_INT64;
    var k := MergeOverruns(t, i);
    assert Merge(t)[k + 1].lo <= MAX_INT64;
  }

  /** Of intervals that are not reversed, sorting and merging make a normal form exactly if at most
      the last of them, in order, ends with the largest number a Go int holds: one past it, the sum
      wraps round. */
  lemma NormalizeNormalExactly(s: seq<Interval>)
    requires forall x | x in s :: x.lo <= x.hi
    ensures NormalForm(Normalize(s)) <==> TopIsLast(s)
  {
    hide TopIsLast, RestBelowTop, NormalForm, Sort, Merge, Sorted;
    InOrderIsTotal();
    SortSorts(s, InOrder);
    SortMembers(s, InOrder);
    var t := Sort(s, InOrder);
    TopInOrder(t);
    SameTop(s, t);
    if RestBelowTop(t) {
      MergeUpToTop(t);
    } else {
      MergeBeyondTop(t);
    }
  }

  lemma SameTop(s: seq<Interval>, t: seq<Interval>)
    requires multiset(s) == multiset(t)
    ensures TopIsLast(s) <==> TopIsLast(t)
  {
    assert forall x :: x in s <==> x in multiset(s);
    assert forall x :: x in t <==> x in multiset(t);
  }

  lemma {:induction false} FirstCovered(s: seq<Interval>, n: nat)
    requires NormalForm(s) && s != [] && Covers(s, n)
    ensures s[0].lo <= n
    ensures n > s[0].hi ==> n > s[0].hi + 1 && Covers(s[1..], n)
  {
    var i :| 0 <= i < |s| && s[i].lo <= n <= s[i].hi;
    if i > 0 {
      assert s[1..][i - 1] == s[i];
    }
  }

  lemma TailCovers(s: seq<Interval>, n: nat)
    requires NormalForm(s) && s != []
    ensures Covers(s[1..], n) <==> Covers(s, n) && n > s[0].hi
  {
    if Covers(s[1..], n) {
      var i :| 0 <= i < |s[1..]| && s[1..][i].lo <= n <= s[1..][i].hi;
      assert s[i + 1].lo <= n <= s[i + 1].hi;
    }
    if Covers(s, n) && n > s[0].hi {
      FirstCovered(s, n);
    }
  }

  lemma EndsAgree(a: seq<Interval>, b: seq<Interval>)
    requires NormalForm(a) && NormalForm(b) && a != [] && b != []
    requires forall n: nat :: Covers(a, n) <==> Covers(b, n)
    ensures a[0] == b[0]
  {
    assert Covers(a, a[0].lo) && Covers(b, b[0].lo);
    FirstCovered(a, b[0].lo);
    FirstCovered(b, a[0].lo);
    assert Covers(a, a[0].hi) && Covers(b, b[0].hi);
    if a[0].hi < b[0].hi {
      assert Covers(b, a[0].hi + 1);
      FirstCovered(a, a[0].hi + 1);
    } else if b[0].hi < a[0].hi {
      assert Covers(a, b[0].hi + 1);
      FirstCovered(b, b[0].hi + 1);
    }
  }

  /** A set of numbers has one normal form. */
  lemma {:induction false} NormalFormUnique(a: seq<Interval>, b: seq<Interval>)
    requires NormalForm(a) && NormalForm(b)
    requires forall n: nat :: Covers(a, n) <==> Covers(b, n)
    ensures a == b
  {
    if a == [] || b == [] {
      assert a != [] ==> Covers(a, a[0].lo);
      assert b != [] ==> Covers(b, b[0].lo);
    } else {
      EndsAgree(a, b);
      forall n: nat ensures Covers(a[1..], n) <==> Covers(b[1..], n) {
        TailCovers(a, n);
        TailCovers(b, n);
      }
      NormalFormUnique(a[1..], b[1..]);
      assert a == [a[0]] + a[1..] && b == [b[0]] + b[1..];
    }
  }
}
