/** Lists without duplicates, the list filters the simulator uses, and sums over finite maps. */
module Seqs {

  predicate NoDup<T(==)>(s: seq<T>) {
    forall i, j :: 0 <= i < j < |s| ==> s[i] != s[j]
  }

  /** The elements of s that lie in keep, in their order. */
  function Keep<T(==)>(s: seq<T>, keep: set<T>): seq<T> {
    if s == [] then []
    else
      var front := Keep(s[..|s| - 1], keep);
      if s[|s| - 1] in keep then front + [s[|s| - 1]] else front
  }

  /** All occurrences of x dropped: the contract of lo.Without. */
  function Without<T(==)>(s: seq<T>, x: T): seq<T> {
    if s == [] then []
    else
      var front := Without(s[..|s| - 1], x);
      if s[|s| - 1] == x then front else front + [s[|s| - 1]]
  }

  /** The last n elements, or everything when there are fewer. */
  function LastN<T>(s: seq<T>, n: nat): seq<T> {
    if |s| <= n then s else s[|s| - n..]
  }

  lemma NoDupSnoc<T>(s: seq<T>, x: T)
    ensures NoDup(s + [x]) <==> NoDup(s) && x !in s
  {
    if NoDup(s + [x]) {
      forall i, j | 0 <= i < j < |s| ensures s[i] != s[j] {
        assert (s + [x])[i] != (s + [x])[j];
      }
      forall i | 0 <= i < |s| ensures s[i] != x {
        assert (s + [x])[i] != (s + [x])[|s|];
      }
    }
  }

  lemma {:induction false} KeepMembers<T>(s: seq<T>, keep: set<T>)
    ensures forall x :: x in Keep(s, keep) <==> x in s && x in keep
    ensures |Keep(s, keep)| <= |s|
    ensures NoDup(s) ==> NoDup(Keep(s, keep))
  {
    if s == [] {
    } else {
      KeepMembers(s[..|s| - 1], keep);
      assert s == s[..|s| - 1] + [s[|s| - 1]];
    }
  }

  /** Keep does not reorder: what stands earlier in the result stood earlier before. */
  lemma {:induction false} KeepOrder<T>(s: seq<T>, keep: set<T>, i: nat, j: nat, k: nat, l: nat)
    requires NoDup(s) && i < j < |Keep(s, keep)| && k < |s| && l < |s|
    requires Keep(s, keep)[i] == s[k] && Keep(s, keep)[j] == s[l]
    ensures k < l
  {
    var front, n := s[..|s| - 1], |s| - 1;
    KeepMembers(front, keep);
    var x: T := Keep(front, keep)[i];
    assert x in Keep(front, keep) && x in front && k < n;
    if j < |Keep(front, keep)| {
      var y: T := Keep(front, keep)[j];
      assert y in Keep(front, keep) && y in front && l < n;
      KeepOrder(front, keep, i, j, k, l);
    }
  }

  lemma {:induction false} WithoutIsKeep<T>(s: seq<T>, y: T)
    ensures Without(s, y) == Keep(s, (set x | x in s) - {y})
  {
    KeepsAllBut(s, y, (set x | x in s) - {y});
  }

  lemma {:induction false} KeepsAllBut<T>(s: seq<T>, y: T, keep: set<T>)
    requires forall i :: 0 <= i < |s| ==> (s[i] in keep <==> s[i] != y)
    ensures Without(s, y) == Keep(s, keep)
  {
    if s == [] {
    } else {
      KeepsAllBut(s[..|s| - 1], y, keep);
    }
  }

  lemma {:induction false} WithoutMembers<T>(s: seq<T>, y: T)
    ensures forall x :: x in Without(s, y) <==> x in s && x != y
    ensures |Without(s, y)| <= |s|
    ensures NoDup(s) ==> NoDup(Without(s, y))
  {
    if s == [] {
    } else {
      WithoutMembers(s[..|s| - 1], y);
      NoDupSnoc(s[..|s| - 1], s[|s| - 1]);
      NoDupSnoc(Without(s[..|s| - 1], y), s[|s| - 1]);
      assert s == s[..|s| - 1] + [s[|s| - 1]];
    }
  }

  /** Dropping an element the filter rejects anyway does not change the filtered list. */
  lemma {:induction false} KeepWithout<T>(s: seq<T>, x: T, keep: set<T>)
    requires x !in keep
    ensures Keep(Without(s, x), keep) == Keep(s, keep)
  {
    if s == [] {
    } else {
      KeepWithout(s[..|s| - 1], x, keep);
      var front := Without(s[..|s| - 1], x);
      if s[|s| - 1] != x {
        assert (front + [s[|s| - 1]])[..|front|] == front;
      }
    }
  }

  lemma {:induction false} WithoutAbsent<T>(s: seq<T>, x: T)
    requires x !in s
    ensures Without(s, x) == s
  {
    if s == [] {
    } else {
      WithoutAbsent(s[..|s| - 1], x);
      assert s == s[..|s| - 1] + [s[|s| - 1]];
    }
  }

  lemma {:induction false} KeepAll<T>(s: seq<T>, keep: set<T>)
    requires forall x :: x in s ==> x in keep
    ensures Keep(s, keep) == s
  {
    if s == [] {
    } else {
      KeepAll(s[..|s| - 1], keep);
      assert s == s[..|s| - 1] + [s[|s| - 1]];
    }
  }

  /** Cutting out the one position of x is dropping x, when x occurs once. */
  lemma {:induction false} DeleteIsWithout<T>(s: seq<T>, i: nat)
    requires i < |s| && NoDup(s)
    ensures s[..i] + s[i + 1..] == Without(s, s[i])
  {
    var front, last := s[..|s| - 1], s[|s| - 1];
    if i == |s| - 1 {
      WithoutAbsent(front, last);
      assert s[..i] + s[i + 1..] == front;
    } else {
      DeleteIsWithout(front, i);
      assert s[..i] + s[i + 1..] == (front[..i] + front[i + 1..]) + [last];
    }
  }

  lemma {:induction false} NoDupCard<T>(s: seq<T>)
    requires NoDup(s)
    ensures |set x | x in s| == |s|
  {
    if s == [] {
    } else {
      var front, last := s[..|s| - 1], s[|s| - 1];
      NoDupCard(front);
      assert s == front + [last];
      assert (set x | x in s) == (set x | x in front) + {last};
    }
  }

  lemma SubsetCard<T>(a: set<T>, b: set<T>)
    requires a <= b
    ensures |a| <= |b|
  {
    assert b == a + (b - a);
  }

  /** Pigeonhole: distinct elements of a set are no more than the set has. */
  lemma NoDupFits<T>(s: seq<T>, bound: set<T>)
    requires NoDup(s) && forall x :: x in s ==> x in bound
    ensures |s| <= |bound|
  {
    NoDupCard(s);
    SubsetCard((set x | x in s), bound);
  }

  /** The sum of a finite map's values; SumSplit shows that the choice does not matter. */
  ghost function Sum<K(!new)>(m: map<K, int>): int
    decreases |m|
  {
    if m == map[] then 0
    else
      var k :| k in m;
      assert |m - {k}| < |m| by { assert m == (m - {k})[k := m[k]]; }
      m[k] + Sum(m - {k})
  }

  lemma {:induction false} SumSplit<K(!new)>(m: map<K, int>, k: K)
    requires k in m
    ensures Sum(m) == m[k] + Sum(m - {k})
    decreases |m|
  {
    var c :| c in m && Sum(m) == m[c] + Sum(m - {c});
    if c != k {
      assert |m - {c}| < |m| by { assert m == (m - {c})[c := m[c]]; }
      assert |m - {k}| < |m| by { assert m == (m - {k})[k := m[k]]; }
      SumSplit(m - {c}, k);
      SumSplit(m - {k}, c);
      assert m - {c} - {k} == m - {k} - {c};
    }
  }
}
