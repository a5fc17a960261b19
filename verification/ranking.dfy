/**
 * `sorted(items, key=count, reverse=True)` and the `[:n]` cut that follows it.
 * Python's sort is stable, also with `reverse=True`: entries with equal counts
 * keep the order they had in the input (for a dict, key-insertion order).
 * The sort is modelled as an insertion sort that places each new entry after
 * every entry already placed whose count is at least as large.
 */
module Ranking {

  /** The two counts are in the order a descending ranking wants them. */
  predicate NonIncreasing<K>(s: seq<(K, nat)>) {
    forall i, j :: 0 <= i < j < |s| ==> s[i].1 >= s[j].1
  }

  /** The entries of `s` whose count is `c`, in their order in `s`. */
  function WithCount<K>(s: seq<(K, nat)>, c: nat): seq<(K, nat)> {
    if s == [] then []
    else WithCount(s[..|s| - 1], c) + (if s[|s| - 1].1 == c then [s[|s| - 1]] else [])
  }

  /** Places `x` after every entry of `s` whose count is at least `x`'s. */
  function Insert<K>(s: seq<(K, nat)>, x: (K, nat)): (r: seq<(K, nat)>)
    ensures |r| == |s| + 1
  {
    if s == [] then [x]
    else if s[0].1 >= x.1 then [s[0]] + Insert(s[1..], x)
    else [x] + s
  }

  /** Inserting adds `x` and loses nothing. */
  lemma {:induction false} InsertIsPermutation<K>(s: seq<(K, nat)>, x: (K, nat))
    ensures multiset(Insert(s, x)) == multiset(s) + multiset{x}
  {
    if s != [] {
      assert s == [s[0]] + s[1..];
      if s[0].1 >= x.1 {
        InsertIsPermutation(s[1..], x);
      }
    }
  }

  /** `sorted(s, key=lambda e: e[1], reverse=True)`. */
  function SortDesc<K>(s: seq<(K, nat)>): (r: seq<(K, nat)>)
    ensures |r| == |s|
  {
    if s == [] then [] else Insert(SortDesc(s[..|s| - 1]), s[|s| - 1])
  }

  /** `s[:n]`. */
  function Take<K>(s: seq<(K, nat)>, n: nat): (r: seq<(K, nat)>)
    ensures |r| == if |s| < n then |s| else n
    ensures r == s[..|r|]
  {
    if |s| <= n then s else s[..n]
  }

  lemma {:induction false} InsertKeepsOrder<K>(s: seq<(K, nat)>, x: (K, nat))
    requires NonIncreasing(s)
    ensures NonIncreasing(Insert(s, x))
  {
    if s != [] && s[0].1 >= x.1 {
      InsertKeepsOrder(s[1..], x);
      InsertIsPermutation(s[1..], x);
      var r := Insert(s, x);
      assert r == [s[0]] + Insert(s[1..], x);
      forall j | 1 <= j < |r| ensures s[0].1 >= r[j].1 {
        assert r[j] in multiset(Insert(s[1..], x));
        assert r[j] in multiset(s[1..]) + multiset{x};
        if r[j] != x {
          var k :| 0 <= k < |s[1..]| && s[1..][k] == r[j];
        }
      }
    }
  }

  /** The ranking is ordered by count, largest first. */
  lemma {:induction false} SortDescIsSorted<K>(s: seq<(K, nat)>)
    ensures NonIncreasing(SortDesc(s))
  {
    if s != [] {
      SortDescIsSorted(s[..|s| - 1]);
      InsertKeepsOrder(SortDesc(s[..|s| - 1]), s[|s| - 1]);
    }
  }

  /** The ranking holds exactly the input entries, each as often as in the input. */
  lemma {:induction false} SortDescIsPermutation<K>(s: seq<(K, nat)>)
    ensures multiset(SortDesc(s)) == multiset(s)
  {
    if s != [] {
      SortDescIsPermutation(s[..|s| - 1]);
      InsertIsPermutation(SortDesc(s[..|s| - 1]), s[|s| - 1]);
      assert s == s[..|s| - 1] + [s[|s| - 1]];
    }
  }

  lemma WithCountAppend<K>(s: seq<(K, nat)>, t: seq<(K, nat)>, c: nat)
    ensures WithCount(s + t, c) == WithCount(s, c) + WithCount(t, c)
    decreases |t|
  {
    if t == [] {
      assert s + t == s;
    } else {
      assert (s + t)[..|s + t| - 1] == s + t[..|t| - 1];
      WithCountAppend(s, t[..|t| - 1], c);
    }
  }

  /** When no entry of `s` has count `c`, the filter is empty. */
  lemma WithCountNone<K>(s: seq<(K, nat)>, c: nat)
    requires forall i :: 0 <= i < |s| ==> s[i].1 != c
    ensures WithCount(s, c) == []
  {
    if s != [] {
      WithCountNone(s[..|s| - 1], c);
    }
  }

  lemma WithCountSingle<K>(x: (K, nat), c: nat)
    ensures WithCount([x], c) == if x.1 == c then [x] else []
  {
    assert [x][..0] == [];
  }

  lemma {:induction false} WithCountInsert<K>(s: seq<(K, nat)>, x: (K, nat), c: nat)
    requires NonIncreasing(s)
    ensures WithCount(Insert(s, x), c) == WithCount(s, c) + (if x.1 == c then [x] else [])
    decreases |s|, 1
  {
    if s == [] {
      WithCountSingle(x, c);
    } else if s[0].1 >= x.1 {
      WithCountInsertAfter(s, x, c);
    } else {
      WithCountInsertFront(s, x, c);
    }
  }

  lemma {:induction false} WithCountInsertAfter<K>(s: seq<(K, nat)>, x: (K, nat), c: nat)
    requires NonIncreasing(s) && s != [] && s[0].1 >= x.1
    ensures WithCount(Insert(s, x), c) == WithCount(s, c) + (if x.1 == c then [x] else [])
    decreases |s|, 0
  {
    var head, rest := [s[0]], s[1..];
    assert NonIncreasing(rest);
    WithCountInsert(rest, x, c);
    assert Insert(s, x) == head + Insert(rest, x);
    WithCountAppend(head, Insert(rest, x), c);
    assert s == head + rest;
    WithCountAppend(head, rest, c);
  }

  lemma WithCountInsertFront<K>(s: seq<(K, nat)>, x: (K, nat), c: nat)
    requires NonIncreasing(s) && s != [] && s[0].1 < x.1
    ensures WithCount(Insert(s, x), c) == WithCount(s, c) + (if x.1 == c then [x] else [])
  {
    if x.1 == c {
      forall i | 0 <= i < |s| ensures s[i].1 != c {
        assert i == 0 || s[0].1 >= s[i].1;
      }
      WithCountNone(s, c);
    }
    assert Insert(s, x) == [x] + s;
    WithCountAppend([x], s, c);
    WithCountSingle(x, c);
  }

  /**
   * Stability: restricted to any one count, the ranking lists the entries in
   * exactly their input order.
   */
  lemma {:induction false} SortDescIsStable<K>(s: seq<(K, nat)>, c: nat)
    ensures WithCount(SortDesc(s), c) == WithCount(s, c)
  {
    if s != [] {
      var init, last := s[..|s| - 1], s[|s| - 1];
      SortDescIsStable(init, c);
      SortDescIsSorted(init);
      WithCountInsert(SortDesc(init), last, c);
    }
  }

  /** Where entry `i` of `s` lands among the entries of its count. */
  lemma WithCountAt<K>(s: seq<(K, nat)>, i: nat)
    requires i < |s|
    ensures var p := |WithCount(s[..i], s[i].1)|;
            p < |WithCount(s, s[i].1)| && WithCount(s, s[i].1)[p] == s[i]
  {
    var c := s[i].1;
    assert s == s[..i] + ([s[i]] + s[i + 1..]);
    WithCountAppend(s[..i], [s[i]] + s[i + 1..], c);
    WithCountAppend([s[i]], s[i + 1..], c);
    WithCountSingle(s[i], c);
  }

  /** Each entry of the filter comes from some position of `s`. */
  lemma {:induction false} WithCountFrom<K>(s: seq<(K, nat)>, c: nat, p: nat)
    requires p < |WithCount(s, c)|
    ensures exists a :: 0 <= a < |s| && s[a] == WithCount(s, c)[p] && |WithCount(s[..a], c)| == p
  {
    var init, last := s[..|s| - 1], s[|s| - 1];
    if p < |WithCount(init, c)| {
      WithCountFrom(init, c, p);
      var a :| 0 <= a < |init| && init[a] == WithCount(init, c)[p] && |WithCount(init[..a], c)| == p;
      assert init[..a] == s[..a];
    } else {
      assert init == s[..|s| - 1];
    }
  }

  /** The filter of a prefix grows with the prefix. */
  lemma WithCountGrows<K>(s: seq<(K, nat)>, a: nat, b: nat, c: nat)
    requires a <= b <= |s|
    ensures |WithCount(s[..a], c)| <= |WithCount(s[..b], c)|
  {
    assert s[..b] == s[..a] + s[a..b];
    WithCountAppend(s[..a], s[a..b], c);
  }

  /** Of two entries with equal count, the earlier one has fewer such entries before it. */
  lemma WithCountBefore<K>(r: seq<(K, nat)>, i: nat, j: nat)
    requires i < j < |r| && r[i].1 == r[j].1
    ensures |WithCount(r[..i], r[i].1)| < |WithCount(r[..j], r[i].1)|
  {
    var c := r[i].1;
    assert r[..j] == r[..i] + ([r[i]] + r[i + 1..j]);
    WithCountAppend(r[..i], [r[i]] + r[i + 1..j], c);
    WithCountAppend([r[i]], r[i + 1..j], c);
    WithCountSingle(r[i], c);
  }

  /**
   * Ties keep their input order: two entries of equal count appear in the
   * ranking in the order they had in the input.
   */
  lemma SortDescKeepsTies<K>(s: seq<(K, nat)>, i: nat, j: nat)
    requires i < j < |SortDesc(s)| && SortDesc(s)[i].1 == SortDesc(s)[j].1
    ensures exists a, b :: 0 <= a < b < |s| && s[a] == SortDesc(s)[i] && s[b] == SortDesc(s)[j]
  {
    var r, c := SortDesc(s), SortDesc(s)[i].1;
    var p, q := |WithCount(r[..i], c)|, |WithCount(r[..j], c)|;
    SortDescIsStable(s, c);
    WithCountAt(r, i);
    WithCountAt(r, j);
    WithCountBefore(r, i, j);
    WithCountFrom(s, c, p);
    WithCountFrom(s, c, q);
    var a :| 0 <= a < |s| && s[a] == WithCount(s, c)[p] && |WithCount(s[..a], c)| == p;
    var b :| 0 <= b < |s| && s[b] == WithCount(s, c)[q] && |WithCount(s[..b], c)| == q;
    if b <= a {
      WithCountGrows(s, b, a, c);
    }
  }

  /**
   * The cut keeps the heaviest entries: every entry of the input that is not
   * in the top `n` counts no more than any entry that is.
   */
  lemma TakeKeepsHeaviest<K>(s: seq<(K, nat)>, n: nat, e: (K, nat), i: nat)
    requires e in s && e !in Take(SortDesc(s), n) && i < |Take(SortDesc(s), n)|
    ensures Take(SortDesc(s), n)[i].1 >= e.1
  {
    var r := SortDesc(s);
    SortDescIsPermutation(s);
    SortDescIsSorted(s);
    assert e in multiset(r);
    var k :| 0 <= k < |r| && r[k] == e;
    var top := Take(r, n);
    assert forall m :: 0 <= m < |top| ==> top[m] != e;
    assert |top| <= k;
  }

  /**
   * At the cut, ties go to the earlier entry: an entry left out of the top `n`
   * with the same count as a kept one comes after it in the input.
   */
  lemma TakeCutTiesCameLater<K>(s: seq<(K, nat)>, n: nat, e: (K, nat), i: nat)
    requires e in s && e !in Take(SortDesc(s), n) && i < |Take(SortDesc(s), n)|
    requires Take(SortDesc(s), n)[i].1 == e.1
    ensures exists a, b :: 0 <= a < b < |s| && s[a] == Take(SortDesc(s), n)[i] && s[b] == e
  {
    var r := SortDesc(s);
    var top := Take(r, n);
    SortDescIsPermutation(s);
    assert e in multiset(r);
    var k :| 0 <= k < |r| && r[k] == e;
    assert forall m :: 0 <= m < |top| ==> top[m] != e;
    assert |top| <= k;
    assert top[i] == r[i];
    SortDescKeepsTies(s, i, k);
  }
}
