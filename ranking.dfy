/**
 * Ranking and selection in `track_price_changes`: the stable descending sort of
 * the records by percentage change, and the `[:3]` / `[-3:]` slices.
 *
 * `list.sort` is a library routine; it is specified here by a stable insertion
 * sort on sequences, whose properties are proved below.
 */
module Ranking {
  import opened Wrappers
  import opened CoinDetails

  /** Descending by percentage change, stated on neighbours. */
  predicate SortedByChange(ds: seq<CoinDetail>)
  {
    forall i :: 0 < i < |ds| ==> ds[i - 1].percentageChange >= ds[i].percentageChange
  }

  /** Inserts `d` before the first record whose change is at most `d`'s, so that `d` precedes its equals. */
  function Insert(d: CoinDetail, ds: seq<CoinDetail>): (r: seq<CoinDetail>)
    ensures |r| == |ds| + 1
  {
    if ds == [] || ds[0].percentageChange <= d.percentageChange then [d] + ds
    else [ds[0]] + Insert(d, ds[1..])
  }

  /** `coin_details.sort(key=lambda x: x['percentage_change'], reverse=True)`. */
  function SortByChange(ds: seq<CoinDetail>): (r: seq<CoinDetail>)
    ensures |r| == |ds|
  {
    if ds == [] then [] else Insert(ds[0], SortByChange(ds[1..]))
  }

  /** The records whose change equals `v`, in their order in `ds`. */
  function WithChange(ds: seq<CoinDetail>, v: real): (r: seq<CoinDetail>)
  {
    if ds == [] then []
    else (if ds[0].percentageChange == v then [ds[0]] else []) + WithChange(ds[1..], v)
  }

  lemma {:induction false} InsertPermutes(d: CoinDetail, ds: seq<CoinDetail>)
    ensures multiset(Insert(d, ds)) == multiset([d] + ds)
  {
    if ds != [] && ds[0].percentageChange > d.percentageChange {
      InsertPermutes(d, ds[1..]);
      assert ds == [ds[0]] + ds[1..];
    }
  }

  lemma {:induction false} InsertSorted(d: CoinDetail, ds: seq<CoinDetail>)
    requires SortedByChange(ds)
    ensures SortedByChange(Insert(d, ds))
    ensures |Insert(d, ds)| == |ds| + 1
    ensures Insert(d, ds)[0] == d || (ds != [] && Insert(d, ds)[0] == ds[0])
  {
    if ds != [] && ds[0].percentageChange > d.percentageChange {
      InsertSorted(d, ds[1..]);
    }
  }

  lemma {:induction false} InsertKeepsEquals(d: CoinDetail, ds: seq<CoinDetail>, v: real)
    ensures WithChange(Insert(d, ds), v) == WithChange([d] + ds, v)
  {
    if ds != [] && ds[0].percentageChange > d.percentageChange {
      InsertKeepsEquals(d, ds[1..], v);
      var rest := Insert(d, ds[1..]);
      assert ([ds[0]] + rest)[1..] == rest;
      assert ([d] + ds)[1..] == ds;
      assert ([d] + ds[1..])[1..] == ds[1..];
      if d.percentageChange == v {
        assert ds[0].percentageChange != v;
      }
    }
  }

  /** The sorted list is a permutation of the records. */
  lemma {:induction false} SortPermutes(ds: seq<CoinDetail>)
    ensures multiset(SortByChange(ds)) == multiset(ds)
  {
    if ds != [] {
      SortPermutes(ds[1..]);
      InsertPermutes(ds[0], SortByChange(ds[1..]));
      assert ds == [ds[0]] + ds[1..];
    }
  }

  /** The sorted list is non-increasing in percentage change. */
  lemma {:induction false} SortSorts(ds: seq<CoinDetail>)
    ensures SortedByChange(SortByChange(ds))
    ensures |SortByChange(ds)| == |ds|
  {
    if ds != [] {
      SortSorts(ds[1..]);
      InsertSorted(ds[0], SortByChange(ds[1..]));
    }
  }

  /** Stability: records with equal change keep their relative order. */
  lemma {:induction false} SortIsStable(ds: seq<CoinDetail>, v: real)
    ensures WithChange(SortByChange(ds), v) == WithChange(ds, v)
  {
    if ds != [] {
      SortIsStable(ds[1..], v);
      InsertKeepsEquals(ds[0], SortByChange(ds[1..]), v);
    }
  }

  /** Sorting a list that is already in order changes nothing. */
  lemma {:induction false} SortKeepsSorted(ds: seq<CoinDetail>)
    requires SortedByChange(ds)
    ensures SortByChange(ds) == ds
  {
    if ds != [] {
      assert SortedByChange(ds[1..]);
      SortKeepsSorted(ds[1..]);
    }
  }

  /** Neighbour order gives order between any two positions. */
  lemma {:induction false} SortedAnyPair(ds: seq<CoinDetail>, i: nat, j: nat)
    requires SortedByChange(ds) && i <= j < |ds|
    ensures ds[i].percentageChange >= ds[j].percentageChange
    decreases j - i
  {
    if i < j {
      SortedAnyPair(ds, i + 1, j);
    }
  }

  /** Python's slice bound: a negative index counts from the end; both are clamped to the list. */
  function SliceBound(i: int, n: nat): (k: nat)
    ensures k <= n
  {
    if i < 0 then (if i + n < 0 then 0 else i + n)
    else if i > n then n
    else i
  }


  /** `coin_details[:3]`: the first `min(3, n)` records. */
  function Gainers(ds: seq<CoinDetail>): (g: seq<CoinDetail>)
    ensures |g| == Min(3, |ds|) && g == ds[..|g|]
  {
    ds[..SliceBound(3, |ds|)]
  }

  /** `coin_details[-3:]`: the last `min(3, n)` records. */
  function Losers(ds: seq<CoinDetail>): (l: seq<CoinDetail>)
    ensures |l| == Min(3, |ds|) && l == ds[|ds| - |l|..]
  {
    ds[SliceBound(-3, |ds|)..]
  }

  /**
   * On a sorted list the gainers have a change at least that of every other
   * record and the losers a change at most that of every other record.
   */
  lemma {:induction false} SelectionExtremes(ds: seq<CoinDetail>)
    requires SortedByChange(ds)
    ensures forall i, j :: 0 <= i < |Gainers(ds)| <= j < |ds| ==>
              ds[i].percentageChange >= ds[j].percentageChange
    ensures forall i, j :: 0 <= i < |ds| - |Losers(ds)| <= j < |ds| ==>
              ds[i].percentageChange >= ds[j].percentageChange
  {
    forall i, j | 0 <= i <= j < |ds| ensures ds[i].percentageChange >= ds[j].percentageChange {
      SortedAnyPair(ds, i, j);
    }
  }

  /**
   * The two selections share records exactly when there are between one and
   * five records: then the tail of the gainers is the head of the losers.
   * With six or more they are disjoint; with none, both are empty.
   */
  lemma SelectionOverlap(ds: seq<CoinDetail>)
    ensures var g, l := Gainers(ds), Losers(ds);
      (|ds| - |l| < |g| <==> 0 < |ds| < 6) &&
      (0 < |ds| < 6 ==> g[|ds| - |l|..] == l[..|g| + |l| - |ds|]) &&
      (|ds| == 0 ==> g == [] && l == [])
  {
  }

  /**
   * Changes 5, -3, 10, 0, -8 sort to 10, 5, 0, -3, -8; the gainers are the
   * records with 10, 5 and 0, the losers those with 0, -3 and -8.
   */
  lemma RankingExample(a: CoinDetail, b: CoinDetail, c: CoinDetail, d: CoinDetail, e: CoinDetail)
    requires a.percentageChange == 5.0 && b.percentageChange == -3.0 && c.percentageChange == 10.0
    requires d.percentageChange == 0.0 && e.percentageChange == -8.0
    ensures SortByChange([a, b, c, d, e]) == [c, a, d, b, e]
    ensures Gainers(SortByChange([a, b, c, d, e])) == [c, a, d]
    ensures Losers(SortByChange([a, b, c, d, e])) == [d, b, e]
  {
    assert SortByChange([e]) == [e];
    assert SortByChange([d, e]) == Insert(d, [e]) == [d, e];
    assert SortByChange([c, d, e]) == Insert(c, [d, e]) == [c, d, e];
    assert Insert(b, [e]) == [b, e];
    assert Insert(b, [d, e]) == [d] + Insert(b, [e]);
    assert SortByChange([b, c, d, e]) == Insert(b, [c, d, e]) == [c, d, b, e];
    assert Insert(a, [d, b, e]) == [a, d, b, e];
    assert SortByChange([a, b, c, d, e]) == Insert(a, [c, d, b, e]) == [c, a, d, b, e];
  }
}
