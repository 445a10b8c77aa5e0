/**
  `nlargest(k, 'review_count')` on the location table: the rows with the
  highest review counts, ties going to the earlier row.
 */
module Ranking {
  import opened Reviews

  /**
    The position of the first location with the largest review count: the
    one `nlargest` (keep='first') ranks highest.
   */
  function Busiest(locs: seq<Location>): (b: nat)
    requires locs != []
    ensures b < |locs|
  {
    if |locs| == 1 then 0
    else
      var rest := Busiest(locs[1..]) + 1;
      if locs[0].reviewCount >= locs[rest].reviewCount then 0 else rest
  }

  /** The table without its busiest row. */
  function Rest(locs: seq<Location>): (r: seq<Location>)
    requires locs != []
    ensures |r| == |locs| - 1
  {
    locs[..Busiest(locs)] + locs[Busiest(locs) + 1..]
  }

  /** Repeatedly take the busiest remaining location, `k` times at most. */
  function TopByCount(locs: seq<Location>, k: nat): seq<Location>
    decreases k
  {
    if k == 0 || locs == [] then []
    else [locs[Busiest(locs)]] + TopByCount(Rest(locs), k - 1)
  }

  predicate NonIncreasing(s: seq<Location>)
  {
    forall i, j :: 0 <= i < j < |s| ==> s[i].reviewCount >= s[j].reviewCount
  }

  /** Every row of `locs` with more reviews than a listed row is listed too. */
  predicate BusierListed(locs: seq<Location>, top: seq<Location>)
  {
    forall x, y :: x in locs && y in top && x.reviewCount > y.reviewCount ==> x in top
  }

  /** The busiest row has the largest count, and every row before it a strictly smaller one. */
  lemma {:induction false} BusiestIsFirstMax(locs: seq<Location>)
    requires locs != []
    ensures forall j :: 0 <= j < |locs| ==> locs[j].reviewCount <= locs[Busiest(locs)].reviewCount
    ensures forall j :: 0 <= j < Busiest(locs) ==> locs[j].reviewCount < locs[Busiest(locs)].reviewCount
  {
    if |locs| > 1 {
      BusiestIsFirstMax(locs[1..]);
      assert forall j :: 1 <= j < |locs| ==> locs[j] == locs[1..][j - 1];
    }
  }

  /** The table is its busiest row plus the rest. */
  lemma RestSplit(locs: seq<Location>)
    requires locs != []
    ensures multiset(locs) == multiset(Rest(locs)) + multiset{locs[Busiest(locs)]}
    ensures forall x :: x in locs ==> x == locs[Busiest(locs)] || x in Rest(locs)
  {
    var b := Busiest(locs);
    assert locs == locs[..b] + [locs[b]] + locs[b + 1..];
  }

  /** The top list has min(k, n) rows. */
  lemma {:induction false} TopLength(locs: seq<Location>, k: nat)
    ensures |TopByCount(locs, k)| == if k < |locs| then k else |locs|
    decreases k
  {
    if k != 0 && locs != [] {
      TopLength(Rest(locs), k - 1);
    }
  }

  /** Rows drawn from the rest, preceded by the busiest row, are drawn from the table. */
  lemma PrependBusiest(locs: seq<Location>, sub: seq<Location>)
    requires locs != []
    requires multiset(sub) <= multiset(Rest(locs))
    ensures multiset([locs[Busiest(locs)]] + sub) <= multiset(locs)
  {
    var x := locs[Busiest(locs)];
    RestSplit(locs);
    assert multiset([x] + sub) == multiset{x} + multiset(sub);
  }

  /** The top list is drawn from the table, each row at most as often as it occurs there. */
  lemma {:induction false} TopFromTable(locs: seq<Location>, k: nat)
    ensures multiset(TopByCount(locs, k)) <= multiset(locs)
    decreases k
  {
    if k != 0 && locs != [] {
      var sub := TopByCount(Rest(locs), k - 1);
      TopFromTable(Rest(locs), k - 1);
      PrependBusiest(locs, sub);
      assert TopByCount(locs, k) == [locs[Busiest(locs)]] + sub;
    }
  }

  /** Every listed row is a row of the table. */
  lemma TopMembers(locs: seq<Location>, k: nat)
    ensures forall y :: y in TopByCount(locs, k) ==> y in locs
  {
    TopFromTable(locs, k);
    forall y | y in TopByCount(locs, k) ensures y in locs {
      assert y in multiset(TopByCount(locs, k));
    }
  }

  lemma PrependKeepsOrder(x: Location, sub: seq<Location>)
    requires NonIncreasing(sub)
    requires forall y :: y in sub ==> y.reviewCount <= x.reviewCount
    ensures NonIncreasing([x] + sub)
  {
    var top := [x] + sub;
    forall i, j | 0 <= i < j < |top| ensures top[i].reviewCount >= top[j].reviewCount {
      assert top[j] == sub[j - 1];
      if i > 0 { assert top[i] == sub[i - 1]; }
    }
  }

  /** The top list is in non-increasing order of review count. */
  lemma {:induction false} TopSorted(locs: seq<Location>, k: nat)
    ensures NonIncreasing(TopByCount(locs, k))
    decreases k
  {
    if k != 0 && locs != [] {
      var x, sub := locs[Busiest(locs)], TopByCount(Rest(locs), k - 1);
      TopSorted(Rest(locs), k - 1);
      TopMembers(Rest(locs), k - 1);
      RestSplit(locs);
      BusiestIsFirstMax(locs);
      forall y | y in sub ensures y.reviewCount <= x.reviewCount {
        assert y in locs;
      }
      PrependKeepsOrder(x, sub);
    }
  }

  /** Every location busier than a listed one is listed too. */
  lemma {:induction false} TopComplete(locs: seq<Location>, k: nat)
    ensures BusierListed(locs, TopByCount(locs, k))
    decreases k
  {
    if k != 0 && locs != [] {
      var x, rest := locs[Busiest(locs)], Rest(locs);
      var sub := TopByCount(rest, k - 1);
      var top := [x] + sub;
      TopComplete(rest, k - 1);
      RestSplit(locs);
      BusiestIsFirstMax(locs);
      forall u, y | u in locs && y in top && u.reviewCount > y.reviewCount ensures u in top {
        if u != x {
          assert u in rest;
          assert y != x;
          assert y in sub;
        }
      }
    }
  }
}
