/** The median of bench.go: it sorts the caller's slice in place and reads the middle. */
module Medians {

  predicate Ascending(s: seq<int>) {
    forall i, j :: 0 <= i < j < |s| ==> s[i] <= s[j]
  }

  function Insert(x: int, s: seq<int>): seq<int> {
    if s == [] || x <= s[0] then [x] + s else [s[0]] + Insert(x, s[1..])
  }

  /** What sort.Ints leaves in a slice. */
  function Sorted(s: seq<int>): seq<int> {
    if s == [] then [] else Insert(s[0], Sorted(s[1..]))
  }

  lemma AscendingCons(x: int, s: seq<int>)
    ensures Ascending([x] + s) <==> Ascending(s) && forall y :: y in s ==> x <= y
  {
    var t := [x] + s;
    if Ascending(t) {
      forall i, j | 0 <= i < j < |s| ensures s[i] <= s[j] {
        assert t[i + 1] <= t[j + 1];
      }
      forall y | y in s ensures x <= y {
        var i :| 0 <= i < |s| && s[i] == y;
        assert t[0] <= t[i + 1];
      }
    } else {
      var i, j :| 0 <= i < j < |t| && t[i] > t[j];
      assert t[j] in s && (i > 0 ==> t[i] == s[i - 1]);
    }
  }

  lemma SameMembers(s: seq<int>, t: seq<int>)
    requires multiset(s) == multiset(t)
    ensures |s| == |t| && forall x :: x in s <==> x in t
  {
    assert |s| == |multiset(s)| == |multiset(t)| == |t|;
    forall x ensures x in s <==> x in t {
      assert x in multiset(s) <==> x in s;
      assert x in multiset(t) <==> x in t;
    }
  }

  lemma {:induction false} InsertKeeps(x: int, s: seq<int>)
    requires Ascending(s)
    ensures Ascending(Insert(x, s)) && multiset(Insert(x, s)) == multiset([x] + s)
    ensures |Insert(x, s)| == |s| + 1
  {
    hide Ascending;
    AscendingCons(x, s);
    if s == [] {
    } else {
      assert s == [s[0]] + s[1..];
      AscendingCons(s[0], s[1..]);
      if x > s[0] {
        InsertKeeps(x, s[1..]);
        SameMembers(Insert(x, s[1..]), [x] + s[1..]);
        AscendingCons(s[0], Insert(x, s[1..]));
      }
    }
  }

  lemma {:induction false} SortedSorts(s: seq<int>)
    ensures Ascending(Sorted(s)) && multiset(Sorted(s)) == multiset(s) && |Sorted(s)| == |s|
  {
    if s == [] {
    } else {
      SortedSorts(s[1..]);
      InsertKeeps(s[0], Sorted(s[1..]));
      assert s == [s[0]] + s[1..];
    }
  }

  /** Only one order is ascending. */
  lemma {:induction false} AscendingIsUnique(s: seq<int>, t: seq<int>)
    requires Ascending(s) && Ascending(t) && multiset(s) == multiset(t)
    ensures s == t
  {
    hide Ascending;
    SameMembers(s, t);
    if s == [] {
    } else {
      var x: int, y: int := s[0], t[0];
      assert x in s && x in t && y in t && y in s;
      assert s == [s[0]] + s[1..] && t == [t[0]] + t[1..];
      AscendingCons(x, s[1..]);
      AscendingCons(y, t[1..]);
      assert x == y;
      assert multiset(s[1..]) == multiset(s) - multiset{x};
      assert multiset(t[1..]) == multiset(t) - multiset{x};
      AscendingIsUnique(s[1..], t[1..]);
    }
  }

  /** Reordering the input does not change the sorted slice, so the order of the iterations is irrelevant. */
  lemma SortedForgetsOrder(s: seq<int>, t: seq<int>)
    requires multiset(s) == multiset(t)
    ensures Sorted(s) == Sorted(t)
  {
    SortedSorts(s);
    SortedSorts(t);
    AscendingIsUnique(Sorted(s), Sorted(t));
  }

  /** A second call finds the slice sorted and leaves it so. */
  lemma SortingTwice(s: seq<int>)
    ensures Sorted(Sorted(s)) == Sorted(s)
  {
    SortedSorts(s);
    SortedForgetsOrder(Sorted(s), s);
  }

  /** The middle of an ascending slice. */
  function Middle(s: seq<int>): real
    requires s != []
  {
    var m := |s| / 2;
    if |s| % 2 == 0 then (s[m - 1] + s[m]) as real / 2.0 else s[m] as real
  }

  function MedianOf(s: seq<int>): real
    requires s != []
  {
    SortedSorts(s);
    Middle(Sorted(s))
  }

  method SortInts(nums: array<int>, n: nat)
    requires n <= nums.Length
    modifies nums
    ensures nums[..n] == Sorted(old(nums[..n])) && nums[n..] == old(nums[n..])
  {
    var sorted := Sorted(nums[..n]);
    SortedSorts(nums[..n]);
    forall i | 0 <= i < n {
      nums[i] := sorted[i];
    }
  }

  /** The first n cells of the array are the slice the caller passes; an empty one panics in the source. */
  method Median(nums: array<int>, n: nat) returns (r: real)
    requires 0 < n <= nums.Length
    modifies nums
    ensures r == MedianOf(old(nums[..n]))
    ensures nums[..n] == Sorted(old(nums[..n])) && nums[n..] == old(nums[n..])
    ensures 2.0 * r == (nums[(n - 1) / 2] + nums[n / 2]) as real
  {
    SortInts(nums, n);
    SortedSorts(old(nums[..n]));
    ghost var s := nums[..n];
    var m := n / 2;
    assert s[m] == nums[m];
    if n % 2 == 0 {
      assert (n - 1) / 2 == m - 1 && s[m - 1] == nums[m - 1];
      return (nums[m - 1] + nums[m]) as real / 2.0;
    }
    assert (n - 1) / 2 == m;
    return nums[m] as real;
  }

  function Count(s: seq<int>, p: int -> bool): nat {
    if s == [] then 0 else (if p(s[0]) then 1 else 0) + Count(s[1..], p)
  }

  lemma {:induction false} InsertCounts(x: int, s: seq<int>, p: int -> bool)
    ensures Count(Insert(x, s), p) == Count([x] + s, p)
  {
    assert ([x] + s)[1..] == s;
    if s == [] || x <= s[0] {
    } else {
      InsertCounts(x, s[1..], p);
      assert Insert(x, s)[1..] == Insert(x, s[1..]);
      assert ([x] + s[1..])[1..] == s[1..];
    }
  }

  lemma {:induction false} SortedCounts(s: seq<int>, p: int -> bool)
    ensures Count(Sorted(s), p) == Count(s, p)
  {
    if s == [] {
    } else {
      SortedCounts(s[1..], p);
      InsertCounts(s[0], Sorted(s[1..]), p);
      assert ([s[0]] + Sorted(s[1..]))[1..] == Sorted(s[1..]);
    }
  }

  lemma {:induction false} CountRange(s: seq<int>, p: int -> bool, lo: nat, hi: nat)
    requires lo <= hi <= |s|
    requires forall i :: lo <= i < hi ==> p(s[i])
    ensures Count(s, p) >= hi - lo
  {
    if s == [] || lo == hi {
    } else {
      forall i | (if lo == 0 then 0 else lo - 1) <= i < hi - 1 ensures p(s[1..][i]) {
        assert s[1..][i] == s[i + 1];
      }
      CountRange(s[1..], p, if lo == 0 then 0 else lo - 1, hi - 1);
    }
  }

  function AtMost(m: real): int -> bool { v => v as real <= m }

  function AtLeast(m: real): int -> bool { v => v as real >= m }

  /** At least half the values lie on each side, the median itself included. */
  lemma MedianSplits(s: seq<int>)
    requires s != []
    ensures 2 * Count(s, AtMost(MedianOf(s))) >= |s|
    ensures 2 * Count(s, AtLeast(MedianOf(s))) >= |s|
  {
    SortedSorts(s);
    MiddleSplits(Sorted(s));
    SortedCounts(s, AtMost(MedianOf(s)));
    SortedCounts(s, AtLeast(MedianOf(s)));
  }

  lemma MiddleSplits(t: seq<int>)
    requires t != [] && Ascending(t)
    ensures 2 * Count(t, AtMost(Middle(t))) >= |t|
    ensures 2 * Count(t, AtLeast(Middle(t))) >= |t|
  {
    hide Count;
    var n := |t|;
    assert t[(n - 1) / 2] as real <= Middle(t) <= t[n / 2] as real;
    forall i | 0 <= i < (n + 1) / 2 ensures AtMost(Middle(t))(t[i]) {
      assert t[i] <= t[(n - 1) / 2];
    }
    forall i | n / 2 <= i < n ensures AtLeast(Middle(t))(t[i]) {
      assert t[n / 2] <= t[i];
    }
    CountRange(t, AtMost(Middle(t)), 0, (n + 1) / 2);
    CountRange(t, AtLeast(Middle(t)), n / 2, n);
  }

  /** The mean of the two middle values, or the middle one. */
  lemma MedianIsMiddle(s: seq<int>)
    requires s != []
    ensures |Sorted(s)| == |s|
    ensures |s| % 2 == 0 ==> 2.0 * MedianOf(s) == (Sorted(s)[|s| / 2 - 1] + Sorted(s)[|s| / 2]) as real
    ensures |s| % 2 == 1 ==> MedianOf(s) == Sorted(s)[|s| / 2] as real
  {
    SortedSorts(s);
  }

  function Negated(s: seq<int>): seq<int> {
    seq(|s|, i requires 0 <= i < |s| => -s[i])
  }

  function Reversed(s: seq<int>): seq<int> {
    seq(|s|, i requires 0 <= i < |s| => s[|s| - 1 - i])
  }

  lemma {:induction false} NegatedCounts(s: seq<int>, x: int)
    ensures multiset(Negated(s))[x] == multiset(s)[-x]
  {
    if s == [] {
    } else {
      var front, last := s[..|s| - 1], s[|s| - 1];
      NegatedCounts(front, x);
      assert s == front + [last] && Negated(s) == Negated(front) + [-last];
    }
  }

  lemma {:induction false} ReversedCounts(s: seq<int>)
    ensures multiset(Reversed(s)) == multiset(s)
  {
    if s == [] {
    } else {
      var front, last := s[..|s| - 1], s[|s| - 1];
      ReversedCounts(front);
      assert s == front + [last] && Reversed(s) == [last] + Reversed(front);
    }
  }

  /** Negating all values turns the sorted slice round. */
  lemma SortedOfNegated(s: seq<int>)
    ensures Sorted(Negated(s)) == Negated(Reversed(Sorted(s)))
  {
    var t := Negated(Reversed(Sorted(s)));
    SortedSorts(s);
    SortedSorts(Negated(s));
    forall i, j | 0 <= i < j < |t| ensures t[i] <= t[j] {
      assert Sorted(s)[|t| - 1 - j] <= Sorted(s)[|t| - 1 - i];
    }
    forall x ensures multiset(t)[x] == multiset(Negated(s))[x] {
      NegatedCounts(Reversed(Sorted(s)), x);
      ReversedCounts(Sorted(s));
      NegatedCounts(s, x);
    }
    assert multiset(t) == multiset(Negated(s));
    AscendingIsUnique(Sorted(Negated(s)), t);
  }

  /** The median favours neither side: negating all values negates it. */
  lemma MedianOfNegated(s: seq<int>)
    requires s != []
    ensures MedianOf(Negated(s)) == -MedianOf(s)
  {
    hide MedianOf, Sorted;
    var t, n := Sorted(s), |s|;
    SortedOfNegated(s);
    MedianIsMiddle(s);
    MedianIsMiddle(Negated(s));
    assert Sorted(Negated(s))[n / 2] == -t[n - 1 - n / 2];
    if n % 2 == 0 {
      assert n - 1 - n / 2 == n / 2 - 1;
      assert Sorted(Negated(s))[n / 2 - 1] == -t[n / 2];
    }
  }

  /** Go's int(f). */
  function Truncated(r: real): int {
    if r >= 0.0 then r.Floor else -((-r).Floor)
  }

  /** Truncation goes towards zero, by less than one. */
  lemma TruncatedIsNearer(r: real)
    ensures r >= 0.0 ==> 0.0 <= Truncated(r) as real <= r < Truncated(r) as real + 1.0
    ensures r <= 0.0 ==> Truncated(r) as real - 1.0 < r <= Truncated(r) as real <= 0.0
  {
  }

  /** Truncation cannot leave the range of the values, negative ones included. */
  lemma MedianWithinRange(s: seq<int>, lo: int, hi: int)
    requires s != [] && forall v :: v in s ==> lo <= v <= hi
    ensures lo <= Truncated(MedianOf(s)) <= hi
  {
    hide Ascending, Sorted;
    SortedSorts(s);
    var t, n := Sorted(s), |s|;
    SameMembers(s, t);
    assert t[n / 2] in s && (n > 1 ==> t[n / 2 - 1] in s);
    assert lo as real <= MedianOf(s) <= hi as real;
  }
}
