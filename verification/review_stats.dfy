/**
  The statistics endpoint of the review store: table sizes, the overall mean
  rating and the five locations with the most reviews.
 */
module ReviewStats {
  import opened Common
  import opened Reviews
  import opened Ranking

  datatype TopEntry = TopEntry(locationId: string, reviewCount: nat, averageRating: real)

  datatype ReviewStats = ReviewStats(totalReviews: nat, totalLocations: nat,
                                     averageRating: Option<real>, topLocations: seq<TopEntry>)

  function ToTopEntry(l: Location): TopEntry
  {
    TopEntry(l.locationId, l.reviewCount, l.averageRating)
  }

  /**
    `get_review_stats`: the table sizes, the mean of all ratings (None on an
    empty table) and the five busiest locations, busiest first.
   */
  method GetReviewStats(rs: seq<Review>, locs: seq<Location>) returns (s: ReviewStats)
    ensures s.totalReviews == |rs| && s.totalLocations == |locs|
    ensures s.averageRating.None? <==> rs == []
    ensures rs != [] ==> s.averageRating == Some(Mean(rs))
    ensures |s.topLocations| == (if |locs| < 5 then |locs| else 5)
    ensures forall i :: 0 <= i < |s.topLocations| ==> s.topLocations[i] == ToTopEntry(TopByCount(locs, 5)[i])
    ensures forall i, j :: 0 <= i < j < |s.topLocations| ==>
      s.topLocations[i].reviewCount >= s.topLocations[j].reviewCount
    ensures forall x, i :: x in locs && 0 <= i < |s.topLocations| && x.reviewCount > s.topLocations[i].reviewCount ==>
      ToTopEntry(x) in s.topLocations
  {
    var average: Option<real> := None;
    if rs != [] {
      average := Some(Mean(rs));
    }
    var top := TopByCount(locs, 5);
    TopLength(locs, 5);
    TopSorted(locs, 5);
    TopComplete(locs, 5);
    var entries: seq<TopEntry> := [];
    for i := 0 to |top|
      invariant |entries| == i
      invariant forall j :: 0 <= j < i ==> entries[j] == ToTopEntry(top[j])
    {
      entries := entries + [ToTopEntry(top[i])];
    }
    forall x, i | x in locs && 0 <= i < |entries| && x.reviewCount > entries[i].reviewCount
      ensures ToTopEntry(x) in entries
    {
      assert top[i] in top;
      assert x in top;
      var j :| 0 <= j < |top| && top[j] == x;
      assert entries[j] == ToTopEntry(x);
    }
    s := ReviewStats(|rs|, |locs|, average, entries);
  }
}
