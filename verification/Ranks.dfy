/** Ranks with ties averaged. */
module Ranks {

  /** Elements among the first `n` that are smaller than `v`, and that equal it. */
  function Below(a: seq<real>, v: real, n: nat): nat
    requires n <= |a|
  {
    if n == 0 then 0 else Below(a, v, n - 1) + if a[n - 1] < v then 1 else 0
  }

  function Ties(a: seq<real>, v: real, n: nat): nat
    requires n <= |a|
  {
    if n == 0 then 0 else Ties(a, v, n - 1) + if a[n - 1] == v then 1 else 0
  }

  /** Average of the places the ties of `v` take in ascending order, counting from 1. */
  function Rank(a: seq<real>, v: real): real {
    Below(a, v, |a|) as real + (Ties(a, v, |a|) as real + 1.0) / 2.0
  }

  function RanksOf(a: seq<real>): (r: seq<real>)
    ensures |r| == |a|
  {
    seq(|a|, k requires 0 <= k < |a| => Rank(a, a[k]))
  }

  // Sorting

  datatype Entry = Entry(v: real, i: nat)

  function Indexed(a: seq<real>): (r: seq<Entry>)
    ensures |r| == |a|
  {
    seq(|a|, k requires 0 <= k < |a| => Entry(a[k], k))
  }

  function Values(es: seq<Entry>): (r: seq<real>)
    ensures |r| == |es|
    ensures forall k :: 0 <= k < |es| ==> r[k] == es[k].v
  {
    seq(|es|, k requires 0 <= k < |es| => es[k].v)
  }

  ghost predicate Ascending(es: seq<Entry>) {
    forall j, k :: 0 <= j < k < |es| ==> es[j].v <= es[k].v
  }

  function Insert(es: seq<Entry>, e: Entry): seq<Entry> {
    if es == [] then [e]
    else if e.v <= es[0].v then [e] + es
    else [es[0]] + Insert(es[1..], e)
  }

  lemma {:induction false} InsertAdds(es: seq<Entry>, e: Entry)
    ensures multiset(Insert(es, e)) == multiset(es) + multiset{e}
  {
    if es != [] && e.v > es[0].v {
      InsertAdds(es[1..], e);
      assert es == [es[0]] + es[1..];
    }
  }

  lemma {:induction false} InsertKeepsOrder(es: seq<Entry>, e: Entry)
    requires Ascending(es)
    ensures Ascending(Insert(es, e))
  {
    if es != [] && e.v > es[0].v {
      var rest := Insert(es[1..], e);
      InsertKeepsOrder(es[1..], e);
      InsertAdds(es[1..], e);
      forall k | 0 <= k < |rest| ensures es[0].v <= rest[k].v {
        assert rest[k] in multiset(rest);
        assert rest[k] == e || rest[k] in es[1..];
      }
    }
  }

  /** Stands for the library's sort. Only what its contract says is used: the order in which it
      leaves ties is open. */
  method SortByValue(es: seq<Entry>) returns (sorted: seq<Entry>)
    ensures Ascending(sorted) && multiset(sorted) == multiset(es)
  {
    sorted := [];
    for i := 0 to |es|
      invariant Ascending(sorted) && multiset(sorted) == multiset(es[..i])
    {
      InsertKeepsOrder(sorted, es[i]);
      InsertAdds(sorted, es[i]);
      sorted := Insert(sorted, es[i]);
      assert es[..i + 1] == es[..i] + [es[i]];
    }
    assert es[..|es|] == es;
  }

  // Counting does not depend on the order

  lemma {:induction false} CountsStepBack(a: seq<real>, b: seq<real>, v: real, k: nat, n: nat)
    requires k <= n <= |b| && |a| == |b| + 1 && a[..k] == b[..k] && a[k + 1..] == b[k..]
    ensures Below(a, v, n + 1) == Below(b, v, n) + if a[k] < v then 1 else 0
    ensures Ties(a, v, n + 1) == Ties(b, v, n) + if a[k] == v then 1 else 0
    decreases n
  {
    if n == k {
      CountsOfPrefix(a, b, v, k);
    } else {
      assert a[n] == a[k + 1..][n - k - 1] == b[k..][n - k - 1] == b[n - 1];
      CountsStepBack(a, b, v, k, n - 1);
    }
  }

  lemma {:induction false} CountsOfPrefix(a: seq<real>, b: seq<real>, v: real, n: nat)
    requires n <= |a| && n <= |b| && a[..n] == b[..n]
    ensures Below(a, v, n) == Below(b, v, n) && Ties(a, v, n) == Ties(b, v, n)
  {
    if n > 0 {
      assert a[n - 1] == a[..n][n - 1] == b[..n][n - 1] == b[n - 1];
      assert a[..n - 1] == a[..n][..n - 1] && b[..n - 1] == b[..n][..n - 1];
      CountsOfPrefix(a, b, v, n - 1);
    }
  }

  function Without(t: seq<Entry>, k: nat): seq<Entry>
    requires k < |t|
  {
    t[..k] + t[k + 1..]
  }

  lemma RemoveLast(s: seq<Entry>, t: seq<Entry>) returns (k: nat)
    requires s != [] && multiset(s) == multiset(t)
    ensures k < |t| && t[k] == s[|s| - 1] && multiset(Without(t, k)) == multiset(s[..|s| - 1])
  {
    var n := |s| - 1;
    var e := s[n];
    assert s == s[..n] + [e];
    assert e in multiset(t);
    k :| k < |t| && t[k] == e;
    assert t == t[..k] + [e] + t[k + 1..];
    assert multiset(Without(t, k)) == multiset(t) - multiset{e};
  }

  lemma CountsWithout(t: seq<Entry>, k: nat, v: real)
    requires k < |t|
    ensures Below(Values(t), v, |t|) == Below(Values(Without(t, k)), v, |t| - 1) + if t[k].v < v then 1 else 0
    ensures Ties(Values(t), v, |t|) == Ties(Values(Without(t, k)), v, |t| - 1) + if t[k].v == v then 1 else 0
  {
    var u := Without(t, k);
    assert Values(t)[..k] == Values(u)[..k] && Values(t)[k + 1..] == Values(u)[k..];
    CountsStepBack(Values(t), Values(u), v, k, |t| - 1);
  }

  lemma {:induction false} CountsOfPermutation(s: seq<Entry>, t: seq<Entry>, v: real)
    requires multiset(s) == multiset(t)
    ensures |s| == |t|
    ensures Below(Values(s), v, |s|) == Below(Values(t), v, |t|)
    ensures Ties(Values(s), v, |s|) == Ties(Values(t), v, |t|)
    decreases |s|
  {
    assert |multiset(s)| == |s| && |multiset(t)| == |t|;
    if s != [] {
      var n := |s| - 1;
      var k := RemoveLast(s, t);
      CountsOfPermutation(s[..n], Without(t, k), v);
      CountsWithout(t, k, v);
      CountsWithout(s, n, v);
      assert Without(s, n) == s[..n];
    }
  }

  // Groups of ties in a sorted sequence

  lemma {:induction false} CountsInGroup(es: seq<Entry>, i: nat, j: nat, n: nat)
    requires Ascending(es) && i < j <= |es| && n <= |es|
    requires i == 0 || es[i - 1].v < es[i].v
    requires forall k :: i <= k < j ==> es[k].v == es[i].v
    requires j == |es| || es[i].v < es[j].v
    ensures Below(Values(es), es[i].v, n) == if n < i then n else i
    ensures Ties(Values(es), es[i].v, n) == if n < i then 0 else if n < j then n - i else j - i
  {
    if n > 0 {
      CountsInGroup(es, i, j, n - 1);
      if n - 1 < i {
        assert es[n - 1].v <= es[i - 1].v;
      } else if n - 1 >= j {
        assert es[j].v <= es[n - 1].v;
      }
    }
  }

  /** The average place of the group is the rank of its value in the original order. */
  lemma GroupRank(a: seq<real>, es: seq<Entry>, i: nat, j: nat)
    requires multiset(es) == multiset(Indexed(a))
    requires Ascending(es) && i < j <= |es|
    requires i == 0 || es[i - 1].v < es[i].v
    requires forall k :: i <= k < j ==> es[k].v == es[i].v
    requires j == |es| || es[i].v < es[j].v
    ensures (i + j - 1) as real / 2.0 + 1.0 == Rank(a, es[i].v)
  {
    CountsInGroup(es, i, j, |es|);
    CountsOfPermutation(es, Indexed(a), es[i].v);
    assert Values(Indexed(a)) == a;
  }

  /** Every entry of the sorted sequence is an element of the original one. */
  lemma EntriesOf(a: seq<real>, es: seq<Entry>)
    requires multiset(es) == multiset(Indexed(a))
    ensures |es| == |a|
    ensures forall k :: 0 <= k < |es| ==> es[k].i < |a| && es[k].v == a[es[k].i]
  {
    assert |multiset(es)| == |es| && |multiset(Indexed(a))| == |a|;
    forall k | 0 <= k < |es| ensures es[k].i < |a| && es[k].v == a[es[k].i] {
      assert es[k] in multiset(es);
      assert es[k] in Indexed(a);
    }
  }

  /** And each element occurs. */
  lemma EntryOf(a: seq<real>, es: seq<Entry>, x: nat) returns (k: nat)
    requires multiset(es) == multiset(Indexed(a)) && x < |a|
    ensures k < |es| && es[k].i == x
  {
    assert Indexed(a)[x] in multiset(Indexed(a));
    assert Entry(a[x], x) in es;
    k :| k < |es| && es[k] == Entry(a[x], x);
  }

  /** Sorts and walks over the groups of ties, giving each its average place. */
  method RankArray(a: seq<real>) returns (ranks: array<real>)
    ensures fresh(ranks) && ranks[..] == RanksOf(a)
  {
    var indexed := SortByValue(Indexed(a));
    EntriesOf(a, indexed);
    ranks := new real[|a|];
    var i := 0;
    while i < |indexed|
      invariant 0 <= i <= |indexed|
      invariant 0 < i < |indexed| ==> indexed[i - 1].v < indexed[i].v
      invariant forall k :: 0 <= k < i ==> ranks[indexed[k].i] == Rank(a, a[indexed[k].i])
    {
      var j := i;
      while j < |indexed| && indexed[j].v == indexed[i].v
        invariant i <= j <= |indexed|
        invariant forall k :: i <= k < j ==> indexed[k].v == indexed[i].v
      {
        j := j + 1;
      }
      var avgRank := (i + j - 1) as real / 2.0 + 1.0;
      assert avgRank == Rank(a, indexed[i].v) by {
        assert j < |indexed| ==> indexed[i].v <= indexed[j].v;
        GroupRank(a, indexed, i, j);
      }
      for k := i to j
        invariant forall m :: 0 <= m < k ==> ranks[indexed[m].i] == Rank(a, a[indexed[m].i])
      {
        ranks[indexed[k].i] := avgRank;
      }
      i := j;
    }
    forall x | 0 <= x < |a| ensures ranks[x] == Rank(a, a[x]) {
      var k := EntryOf(a, indexed, x);
    }
  }

  // What ranks mean

  /** Order and ties are kept. */
  lemma {:induction false} CountsGrow(a: seq<real>, v: real, w: real, n: nat)
    requires n <= |a| && v < w
    ensures Below(a, v, n) + Ties(a, v, n) <= Below(a, w, n)
  {
    if n > 0 { CountsGrow(a, v, w, n - 1); }
  }

  lemma {:induction false} TiesWithItself(a: seq<real>, k: nat, n: nat)
    requires k < n <= |a|
    ensures Ties(a, a[k], n) >= 1
    decreases n
  {
    if k < n - 1 { TiesWithItself(a, k, n - 1); }
  }

  /** Ranks order the elements as their values do. */
  lemma RanksOrder(a: seq<real>, j: nat, k: nat)
    requires j < |a| && k < |a|
    ensures RanksOf(a)[j] < RanksOf(a)[k] <==> a[j] < a[k]
    ensures RanksOf(a)[j] == RanksOf(a)[k] <==> a[j] == a[k]
  {
    TiesWithItself(a, j, |a|);
    TiesWithItself(a, k, |a|);
    if a[j] < a[k] { CountsGrow(a, a[j], a[k], |a|); }
    if a[k] < a[j] { CountsGrow(a, a[k], a[j], |a|); }
  }

  function Sum(a: seq<real>, n: nat): real
    requires n <= |a|
  {
    if n == 0 then 0.0 else Sum(a, n - 1) + a[n - 1]
  }

  /** Twice the places below plus the ties, over the first `m` elements compared with the first `n`. */
  function Places(a: seq<real>, n: nat, m: nat): nat
    requires n <= |a| && m <= |a|
  {
    if m == 0 then 0 else Places(a, n, m - 1) + 2 * Below(a, a[m - 1], n) + Ties(a, a[m - 1], n)
  }

  /** One more element to compare with adds, over `m` elements, what those place below it or beside it lack. */
  lemma {:induction false} PlacesWiden(a: seq<real>, n: nat, m: nat)
    requires n < |a| && m <= |a|
    ensures Places(a, n + 1, m) + 2 * Below(a, a[n], m) + Ties(a, a[n], m) == Places(a, n, m) + 2 * m
  {
    if m > 0 { PlacesWiden(a, n, m - 1); }
  }

  lemma {:induction false} PlacesTotal(a: seq<real>, n: nat)
    requires n <= |a|
    ensures Places(a, n, n) == n * n
  {
    if n > 0 {
      PlacesTotal(a, n - 1);
      PlacesWiden(a, n - 1, n - 1);
      assert Places(a, n, n) == Places(a, n, n - 1) + 2 * Below(a, a[n - 1], n) + Ties(a, a[n - 1], n);
      assert n * n == (n - 1) * (n - 1) + 2 * (n - 1) + 1;
    }
  }

  lemma {:induction false} SumOfPlaces(a: seq<real>, m: nat)
    requires m <= |a|
    ensures Sum(RanksOf(a), m) == (Places(a, |a|, m) + m) as real / 2.0
  {
    if m > 0 { SumOfPlaces(a, m - 1); }
  }

  /** Ties or not, the ranks add up to those of distinct values. */
  lemma RanksAddUp(a: seq<real>)
    ensures Sum(RanksOf(a), |a|) == (|a| * (|a| + 1)) as real / 2.0
  {
    PlacesTotal(a, |a|);
    SumOfPlaces(a, |a|);
  }

  /** The same comparisons between all pairs of elements. */
  ghost predicate SameOrder(a: seq<real>, b: seq<real>) {
    |a| == |b| && forall j, k :: 0 <= j < |a| && 0 <= k < |a| ==> (a[j] < a[k] <==> b[j] < b[k])
  }

  lemma {:induction false} SameCounts(a: seq<real>, b: seq<real>, k: nat, n: nat)
    requires SameOrder(a, b) && k < |a| && n <= |a|
    ensures Below(a, a[k], n) == Below(b, b[k], n) && Ties(a, a[k], n) == Ties(b, b[k], n)
    decreases n
  {
    if n > 0 {
      SameCounts(a, b, k, n - 1);
      assert a[n - 1] < a[k] <==> b[n - 1] < b[k];
      assert a[k] < a[n - 1] <==> b[k] < b[n - 1];
    }
  }

  /** Ranks depend on the order alone, and so do not change under a strictly increasing map. */
  lemma RanksDependOnOrder(a: seq<real>, b: seq<real>)
    requires |a| == |b|
    ensures RanksOf(a) == RanksOf(b) <==> SameOrder(a, b)
  {
    if SameOrder(a, b) {
      forall k | 0 <= k < |a| ensures RanksOf(a)[k] == RanksOf(b)[k] { SameCounts(a, b, k, |a|); }
    }
    if RanksOf(a) == RanksOf(b) {
      forall j, k | 0 <= j < |a| && 0 <= k < |a| ensures a[j] < a[k] <==> b[j] < b[k] {
        RanksOrder(a, j, k);
        RanksOrder(b, j, k);
      }
    }
  }
}
