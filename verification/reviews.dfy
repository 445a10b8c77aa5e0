/**
  The review store: a table of reviews and a derived table of locations, one
  row per `location_id`, holding the number of reviews there and their mean
  rating. Creating a review upserts its location; deleting one recounts its
  location or removes it with its last review.
 */
module Reviews {
  import opened Common

  /** The body of a create request (`ReviewCreate`). Ratings are not range-checked. */
  datatype ReviewInput = ReviewInput(locationId: string, latitude: real, longitude: real, title: string,
                                     content: string, rating: int, author: string,
                                     tags: Option<seq<string>>)

  datatype Review = Review(reviewId: string, locationId: string, latitude: real, longitude: real,
                           title: string, content: string, rating: int, author: string,
                           tags: seq<string>, createdAt: Instant, updatedAt: Instant)

  /**
    A location row. `updatedAt` is None when no path has written the column
    for this row; the mean is exact rather than a float.
   */
  datatype Location = Location(locationId: string, latitude: real, longitude: real, createdAt: Instant,
                               updatedAt: Option<Instant>, reviewCount: nat, averageRating: real)

  /** The row a create appends: fresh id, both timestamps `now`, tags `[]` when none were given. */
  function NewReview(input: ReviewInput, id: string, now: Instant): Review
  {
    Review(id, input.locationId, input.latitude, input.longitude, input.title, input.content,
           input.rating, input.author, if input.tags.Some? then input.tags.value else [], now, now)
  }

  // ---------------------------------------------------------------------------
  // Specification functions over the tables

  /** The reviews at one location, in stored order (the mask `location_id == lid`). */
  function ReviewsAt(rs: seq<Review>, lid: string): seq<Review>
  {
    if rs == [] then []
    else ReviewsAt(rs[..|rs| - 1], lid) + (if rs[|rs| - 1].locationId == lid then [rs[|rs| - 1]] else [])
  }

  function SumOfRatings(rs: seq<Review>): int
  {
    if rs == [] then 0 else SumOfRatings(rs[..|rs| - 1]) + rs[|rs| - 1].rating
  }

  /** The mean rating, exactly. */
  function Mean(rs: seq<Review>): real
    requires rs != []
  {
    SumOfRatings(rs) as real / |rs| as real
  }

  /** The rows whose `review_id` differs from `id`, in stored order. */
  function WithoutReview(rs: seq<Review>, id: string): seq<Review>
  {
    if rs == [] then []
    else WithoutReview(rs[..|rs| - 1], id) + (if rs[|rs| - 1].reviewId != id then [rs[|rs| - 1]] else [])
  }

  /** The location rows whose `location_id` differs from `lid`, in stored order. */
  function WithoutLocation(locs: seq<Location>, lid: string): seq<Location>
  {
    if locs == [] then []
    else
      var last := locs[|locs| - 1];
      WithoutLocation(locs[..|locs| - 1], lid) + (if last.locationId != lid then [last] else [])
  }

  /** The position of the first review with this id (`reviews_df[mask].iloc[0]`). */
  function FindReview(rs: seq<Review>, id: string): (r: Option<nat>)
    ensures r.Some? ==> r.value < |rs| && rs[r.value].reviewId == id
    ensures r.Some? ==> forall j :: 0 <= j < r.value ==> rs[j].reviewId != id
    ensures r.None? <==> forall j :: 0 <= j < |rs| ==> rs[j].reviewId != id
  {
    if rs == [] then None
    else if rs[0].reviewId == id then Some(0)
    else match FindReview(rs[1..], id)
      case None => None
      case Some(k) => Some(k + 1)
  }

  /** The position of the first location row with this id (`locations_df[mask].index[0]`). */
  function FindLocation(locs: seq<Location>, lid: string): (r: Option<nat>)
    ensures r.Some? ==> r.value < |locs| && locs[r.value].locationId == lid
    ensures r.Some? ==> forall j :: 0 <= j < r.value ==> locs[j].locationId != lid
    ensures r.None? <==> forall j :: 0 <= j < |locs| ==> locs[j].locationId != lid
  {
    if locs == [] then None
    else if locs[0].locationId == lid then Some(0)
    else match FindLocation(locs[1..], lid)
      case None => None
      case Some(k) => Some(k + 1)
  }

  /** The location table after `r`, already appended to `rs`, is added: create or recompute its row. */
  function Upsert(locs: seq<Location>, rs: seq<Review>, r: Review, now: Instant, stamp: bool): seq<Location>
    requires ReviewsAt(rs, r.locationId) != []
  {
    match FindLocation(locs, r.locationId)
    case None =>
      locs + [Location(r.locationId, r.latitude, r.longitude, now, if stamp then Some(now) else None,
                       1, r.rating as real)]
    case Some(i) =>
      var at := ReviewsAt(rs, r.locationId);
      locs[i := locs[i].(reviewCount := |at|, averageRating := Mean(at),
                         updatedAt := if stamp then Some(now) else locs[i].updatedAt)]
  }

  /**
    The location table after the reviews of `lid` became `rs`: the row is
    removed when none is left, recounted otherwise; None when the row to
    recount is missing (`.index[0]` of an empty index raises).
   */
  function Recount(locs: seq<Location>, rs: seq<Review>, lid: string): Option<seq<Location>>
  {
    var at := ReviewsAt(rs, lid);
    if at == [] then Some(WithoutLocation(locs, lid))
    else match FindLocation(locs, lid)
      case None => None
      case Some(i) => Some(locs[i := locs[i].(reviewCount := |at|, averageRating := Mean(at))])
  }

  // ---------------------------------------------------------------------------
  // The consistency invariant

  predicate DistinctReviewIds(rs: seq<Review>)
  {
    forall i, j :: 0 <= i < j < |rs| ==> rs[i].reviewId != rs[j].reviewId
  }

  predicate DistinctLocationIds(locs: seq<Location>)
  {
    forall i, j :: 0 <= i < j < |locs| ==> locs[i].locationId != locs[j].locationId
  }

  /** The row's count and mean are those of the reviews sharing its id, of which there is at least one. */
  predicate Summarises(loc: Location, rs: seq<Review>)
  {
    var at := ReviewsAt(rs, loc.locationId);
    at != [] && loc.reviewCount == |at| && loc.averageRating == Mean(at)
  }

  predicate HasLocation(locs: seq<Location>, lid: string)
  {
    exists i :: 0 <= i < |locs| && locs[i].locationId == lid
  }

  /**
    Review ids are distinct, location ids are distinct, every location row
    summarises exactly the reviews sharing its id, and every review has its
    location row.
   */
  predicate Consistent(rs: seq<Review>, locs: seq<Location>)
  {
    && DistinctReviewIds(rs)
    && DistinctLocationIds(locs)
    && (forall i :: 0 <= i < |locs| ==> Summarises(locs[i], rs))
    && (forall k :: 0 <= k < |rs| ==> HasLocation(locs, rs[k].locationId))
  }

  // ---------------------------------------------------------------------------
  // Lemmas about the specification functions

  lemma {:induction false} ReviewsAtConcat(a: seq<Review>, b: seq<Review>, lid: string)
    ensures ReviewsAt(a + b, lid) == ReviewsAt(a, lid) + ReviewsAt(b, lid)
  {
    if b == [] {
      assert a + b == a;
    } else {
      var b' := b[..|b| - 1];
      assert (a + b)[..|a + b| - 1] == a + b';
      ReviewsAtConcat(a, b', lid);
    }
  }

  lemma {:induction false} SumConcat(a: seq<Review>, b: seq<Review>)
    ensures SumOfRatings(a + b) == SumOfRatings(a) + SumOfRatings(b)
  {
    if b == [] {
      assert a + b == a;
    } else {
      var b' := b[..|b| - 1];
      assert (a + b)[..|a + b| - 1] == a + b';
      SumConcat(a, b');
    }
  }

  lemma ReviewsAtSingle(r: Review, lid: string)
    ensures ReviewsAt([r], lid) == if r.locationId == lid then [r] else []
  {
    assert [r][..0] == [];
  }

  /** Exactly the reviews with that location id are listed. */
  lemma {:induction false} ReviewsAtMembers(rs: seq<Review>, lid: string, x: Review)
    ensures x in ReviewsAt(rs, lid) <==> x in rs && x.locationId == lid
  {
    if rs != [] {
      var init := rs[..|rs| - 1];
      ReviewsAtMembers(init, lid, x);
      assert rs == init + [rs[|rs| - 1]];
    }
  }

  /** Every listed review has that location id (so the list is no longer than the table). */
  lemma {:induction false} ReviewsAtBounded(rs: seq<Review>, lid: string)
    ensures |ReviewsAt(rs, lid)| <= |rs|
    ensures forall k :: 0 <= k < |ReviewsAt(rs, lid)| ==> ReviewsAt(rs, lid)[k].locationId == lid
  {
    if rs != [] {
      ReviewsAtBounded(rs[..|rs| - 1], lid);
    }
  }

  lemma {:induction false} WithoutAbsent(rs: seq<Review>, id: string)
    requires forall k :: 0 <= k < |rs| ==> rs[k].reviewId != id
    ensures WithoutReview(rs, id) == rs
  {
    if rs != [] {
      WithoutAbsent(rs[..|rs| - 1], id);
      assert rs == rs[..|rs| - 1] + [rs[|rs| - 1]];
    }
  }

  /** With distinct ids, deleting by id removes exactly the one row at its position. */
  lemma {:induction false} WithoutUnique(rs: seq<Review>, id: string, p: nat)
    requires DistinctReviewIds(rs)
    requires p < |rs| && rs[p].reviewId == id
    ensures WithoutReview(rs, id) == rs[..p] + rs[p + 1..]
  {
    var n := |rs|;
    var init := rs[..n - 1];
    if p == n - 1 {
      WithoutAbsent(init, id);
    } else {
      WithoutUnique(init, id, p);
      assert init[..p] == rs[..p];
      assert init[p + 1..] + [rs[n - 1]] == rs[p + 1..];
    }
  }

  lemma {:induction false} WithoutLocationAbsent(locs: seq<Location>, lid: string)
    requires forall k :: 0 <= k < |locs| ==> locs[k].locationId != lid
    ensures WithoutLocation(locs, lid) == locs
  {
    if locs != [] {
      WithoutLocationAbsent(locs[..|locs| - 1], lid);
      assert locs == locs[..|locs| - 1] + [locs[|locs| - 1]];
    }
  }

  /** With distinct location ids, removing a location drops exactly its row. */
  lemma {:induction false} WithoutLocationUnique(locs: seq<Location>, lid: string, i: nat)
    requires DistinctLocationIds(locs)
    requires i < |locs| && locs[i].locationId == lid
    ensures WithoutLocation(locs, lid) == locs[..i] + locs[i + 1..]
  {
    var n := |locs|;
    var init := locs[..n - 1];
    if i == n - 1 {
      WithoutLocationAbsent(init, lid);
    } else {
      WithoutLocationUnique(init, lid, i);
      assert init[..i] == locs[..i];
      assert init[i + 1..] + [locs[n - 1]] == locs[i + 1..];
    }
  }

  /** Removing the review at `p` leaves every other location's reviews as they were. */
  lemma RemovalKeepsOtherLocations(rs: seq<Review>, p: nat, lid: string)
    requires p < |rs| && rs[p].locationId != lid
    ensures ReviewsAt(rs[..p] + rs[p + 1..], lid) == ReviewsAt(rs, lid)
  {
    var a, b, x := rs[..p], rs[p + 1..], rs[p];
    assert rs == (a + [x]) + b;
    ReviewsAtConcat(a + [x], b, lid);
    ReviewsAtConcat(a, [x], lid);
    ReviewsAtConcat(a, b, lid);
    ReviewsAtSingle(x, lid);
    assert ReviewsAt(a + [x], lid) == ReviewsAt(a, lid);
  }

  /**
    Removing the review at `p` removes one review from its location: one fewer,
    and the rating sum drops by its rating.
   */
  lemma RemovalRecountsLocation(rs: seq<Review>, p: nat)
    requires p < |rs|
    ensures var lid := rs[p].locationId;
      && |ReviewsAt(rs[..p] + rs[p + 1..], lid)| == |ReviewsAt(rs, lid)| - 1
      && SumOfRatings(ReviewsAt(rs[..p] + rs[p + 1..], lid)) == SumOfRatings(ReviewsAt(rs, lid)) - rs[p].rating
  {
    var lid := rs[p].locationId;
    var a, b := ReviewsAt(rs[..p], lid), ReviewsAt(rs[p + 1..], lid);
    assert rs == rs[..p] + [rs[p]] + rs[p + 1..];
    ReviewsAtConcat(rs[..p] + [rs[p]], rs[p + 1..], lid);
    ReviewsAtConcat(rs[..p], [rs[p]], lid);
    ReviewsAtConcat(rs[..p], rs[p + 1..], lid);
    ReviewsAtSingle(rs[p], lid);
    SumConcat(a + [rs[p]], b);
    SumConcat(a, [rs[p]]);
    SumConcat(a, b);
    assert [rs[p]][..0] == [];
  }

  /** Appending a review adds it to its own location's reviews and to no other. */
  lemma ReviewsAtAppend(rs: seq<Review>, r: Review, lid: string)
    ensures ReviewsAt(rs + [r], lid) == ReviewsAt(rs, lid) + (if r.locationId == lid then [r] else [])
  {
    assert (rs + [r])[..|rs|] == rs;
  }

  lemma {:induction false} ReviewsAtEmpty(rs: seq<Review>, lid: string)
    requires forall k :: 0 <= k < |rs| ==> rs[k].locationId != lid
    ensures ReviewsAt(rs, lid) == []
  {
    if rs != [] {
      ReviewsAtEmpty(rs[..|rs| - 1], lid);
    }
  }

  /** A consistent table has no reviews at a location id without a row. */
  lemma NoReviewsWithoutLocation(rs: seq<Review>, locs: seq<Location>, lid: string)
    requires Consistent(rs, locs)
    requires FindLocation(locs, lid).None?
    ensures ReviewsAt(rs, lid) == []
  {
    forall k | 0 <= k < |rs| ensures rs[k].locationId != lid {
      assert HasLocation(locs, rs[k].locationId);
    }
    ReviewsAtEmpty(rs, lid);
  }

  lemma MeanSingle(r: Review)
    ensures Mean([r]) == r.rating as real
  {
    assert [r][..0] == [];
    assert SumOfRatings([r]) == SumOfRatings([]) + r.rating;
    assert |[r]| as real == 1.0;
  }

  /**
    The first review at a new location creates a row counting one review whose
    mean is that review's rating: exactly its reviews once it is appended.
   */
  lemma InsertNewLocation(rs: seq<Review>, locs: seq<Location>, r: Review, now: Instant, stamp: bool)
    requires Consistent(rs, locs)
    requires FindLocation(locs, r.locationId).None?
    ensures ReviewsAt(rs + [r], r.locationId) == [r]
    ensures var out := Upsert(locs, rs + [r], r, now, stamp);
      && |out| == |locs| + 1 && out[..|locs|] == locs
      && out[|locs|].locationId == r.locationId
      && out[|locs|].reviewCount == 1 == |ReviewsAt(rs + [r], r.locationId)|
      && out[|locs|].averageRating == r.rating as real == Mean(ReviewsAt(rs + [r], r.locationId))
  {
    NoReviewsWithoutLocation(rs, locs, r.locationId);
    ReviewsAtAppend(rs, r, r.locationId);
    assert [r][..0] == [];
    assert SumOfRatings([r]) == r.rating;
    assert Mean([r]) == r.rating as real / 1 as real;
  }

  /**
    A review at an existing location recounts that row over all its reviews,
    the new one included; every other row is unchanged.
   */
  lemma InsertExistingLocation(rs: seq<Review>, locs: seq<Location>, r: Review, now: Instant, stamp: bool)
    requires FindLocation(locs, r.locationId).Some?
    ensures ReviewsAt(rs + [r], r.locationId) == ReviewsAt(rs, r.locationId) + [r]
    ensures var i := FindLocation(locs, r.locationId).value;
      var out := Upsert(locs, rs + [r], r, now, stamp);
      && |out| == |locs|
      && out[i].reviewCount == |ReviewsAt(rs, r.locationId)| + 1
      && out[i].averageRating
         == (SumOfRatings(ReviewsAt(rs, r.locationId)) + r.rating) as real / (|ReviewsAt(rs, r.locationId)| + 1) as real
      && (forall j :: 0 <= j < |locs| && j != i ==> out[j] == locs[j])
  {
    var lid := r.locationId;
    ReviewsAtAppend(rs, r, lid);
    var at := ReviewsAt(rs, lid);
    var at' := ReviewsAt(rs + [r], lid);
    assert at' == at + [r];
    assert at'[..|at'| - 1] == at;
    assert SumOfRatings(at') == SumOfRatings(at) + r.rating;
    var i := FindLocation(locs, lid).value;
    var out := Upsert(locs, rs + [r], r, now, stamp);
    assert out == locs[i := locs[i].(reviewCount := |at'|, averageRating := Mean(at'),
                                     updatedAt := if stamp then Some(now) else locs[i].updatedAt)];
  }

  /** A row for another location summarises the same reviews after an append. */
  lemma SummarisesAfterAppend(loc: Location, rs: seq<Review>, r: Review)
    requires Summarises(loc, rs) && loc.locationId != r.locationId
    ensures Summarises(loc, rs + [r])
  {
    ReviewsAtAppend(rs, r, loc.locationId);
    var at := ReviewsAt(rs, loc.locationId);
    assert at + [] == at;
  }

  /** Every review keeps its row when rows are only appended or updated in place with the same id. */
  lemma LocationsKept(rs: seq<Review>, locs: seq<Location>, out: seq<Location>)
    requires forall k :: 0 <= k < |rs| ==> HasLocation(locs, rs[k].locationId)
    requires |locs| <= |out|
    requires forall j :: 0 <= j < |locs| ==> out[j].locationId == locs[j].locationId
    ensures forall k :: 0 <= k < |rs| ==> HasLocation(out, rs[k].locationId)
  {
    forall k | 0 <= k < |rs| ensures HasLocation(out, rs[k].locationId) {
      assert HasLocation(locs, rs[k].locationId);
      var j :| 0 <= j < |locs| && locs[j].locationId == rs[k].locationId;
      assert out[j].locationId == rs[k].locationId;
    }
  }

  lemma AppendKeepsIdsDistinct(rs: seq<Review>, r: Review)
    requires DistinctReviewIds(rs)
    requires forall k :: 0 <= k < |rs| ==> rs[k].reviewId != r.reviewId
    ensures DistinctReviewIds(rs + [r])
  {
    var rs' := rs + [r];
    forall i, j | 0 <= i < j < |rs'| ensures rs'[i].reviewId != rs'[j].reviewId {
      assert rs'[i] == rs[i];
      if j < |rs| { assert rs'[j] == rs[j]; }
    }
  }

  /** The summaries of the rows other than `skip` survive an append at another location. */
  lemma OtherRowsSummarise(rs: seq<Review>, locs: seq<Location>, out: seq<Location>, r: Review, skip: int)
    requires forall j :: 0 <= j < |locs| ==> Summarises(locs[j], rs)
    requires DistinctLocationIds(locs)
    requires 0 <= skip < |locs| ==> locs[skip].locationId == r.locationId
    requires !(0 <= skip < |locs|) ==> forall j :: 0 <= j < |locs| ==> locs[j].locationId != r.locationId
    requires |locs| <= |out|
    requires forall j :: 0 <= j < |locs| && j != skip ==> out[j] == locs[j]
    ensures forall j :: 0 <= j < |locs| && j != skip ==> Summarises(out[j], rs + [r])
  {
    forall j | 0 <= j < |locs| && j != skip ensures Summarises(out[j], rs + [r]) {
      SummarisesAfterAppend(locs[j], rs, r);
    }
  }

  /** The row created for a new location summarises its single review; the old rows keep theirs. */
  lemma NewRowSummaries(rs: seq<Review>, locs: seq<Location>, r: Review, row: Location)
    requires Consistent(rs, locs)
    requires FindLocation(locs, r.locationId).None?
    requires row.locationId == r.locationId && row.reviewCount == 1 && row.averageRating == r.rating as real
    ensures forall j :: 0 <= j < |locs + [row]| ==> Summarises((locs + [row])[j], rs + [r])
  {
    var out := locs + [row];
    NoReviewsWithoutLocation(rs, locs, r.locationId);
    ReviewsAtAppend(rs, r, r.locationId);
    MeanSingle(r);
    assert Summarises(row, rs + [r]);
    OtherRowsSummarise(rs, locs, out, r, -1);
  }

  lemma AppendKeepsLocationIdsDistinct(locs: seq<Location>, row: Location)
    requires DistinctLocationIds(locs)
    requires forall j :: 0 <= j < |locs| ==> locs[j].locationId != row.locationId
    ensures DistinctLocationIds(locs + [row])
  {
    var out := locs + [row];
    forall i, j | 0 <= i < j < |out| ensures out[i].locationId != out[j].locationId {
      assert out[i] == locs[i];
      if j < |locs| { assert out[j] == locs[j]; }
    }
  }

  /** A new row lets the appended review, as well as every earlier one, find its location. */
  lemma AppendedReviewHasRow(rs: seq<Review>, locs: seq<Location>, r: Review, row: Location)
    requires forall k :: 0 <= k < |rs| ==> HasLocation(locs, rs[k].locationId)
    requires row.locationId == r.locationId
    ensures forall k :: 0 <= k < |rs + [r]| ==> HasLocation(locs + [row], (rs + [r])[k].locationId)
  {
    var rs', out := rs + [r], locs + [row];
    LocationsKept(rs, locs, out);
    forall k | 0 <= k < |rs'| ensures HasLocation(out, rs'[k].locationId) {
      if k < |rs| {
        assert rs'[k] == rs[k];
      } else {
        assert out[|locs|].locationId == rs'[k].locationId;
      }
    }
  }

  lemma InsertAtNewLocation(rs: seq<Review>, locs: seq<Location>, r: Review, now: Instant, stamp: bool)
    requires Consistent(rs, locs)
    requires forall k :: 0 <= k < |rs| ==> rs[k].reviewId != r.reviewId
    requires FindLocation(locs, r.locationId).None?
    ensures ReviewsAt(rs + [r], r.locationId) != []
    ensures Consistent(rs + [r], Upsert(locs, rs + [r], r, now, stamp))
  {
    var row := Location(r.locationId, r.latitude, r.longitude, now, if stamp then Some(now) else None,
                        1, r.rating as real);
    assert Upsert(locs, rs + [r], r, now, stamp) == locs + [row];
    ReviewsAtAppend(rs, r, r.locationId);
    AppendKeepsIdsDistinct(rs, r);
    AppendKeepsLocationIdsDistinct(locs, row);
    NewRowSummaries(rs, locs, r, row);
    AppendedReviewHasRow(rs, locs, r, row);
  }

  lemma InsertAtExistingLocation(rs: seq<Review>, locs: seq<Location>, r: Review, now: Instant, stamp: bool)
    requires Consistent(rs, locs)
    requires forall k :: 0 <= k < |rs| ==> rs[k].reviewId != r.reviewId
    requires FindLocation(locs, r.locationId).Some?
    ensures ReviewsAt(rs + [r], r.locationId) != []
    ensures Consistent(rs + [r], Upsert(locs, rs + [r], r, now, stamp))
  {
    var rs' := rs + [r];
    var i := FindLocation(locs, r.locationId).value;
    var out := Upsert(locs, rs', r, now, stamp);
    InsertExistingLocation(rs, locs, r, now, stamp);
    AppendKeepsIdsDistinct(rs, r);
    assert forall j :: 0 <= j < |locs| ==> out[j].locationId == locs[j].locationId;
    LocationsKept(rs, locs, out);
    OtherRowsSummarise(rs, locs, out, r, i);
    assert Summarises(out[i], rs');
    assert HasLocation(out, rs'[|rs|].locationId) by {
      assert out[i].locationId == r.locationId;
    }
    assert forall k :: 0 <= k < |rs'| ==> HasLocation(out, rs'[k].locationId) by {
      forall k | 0 <= k < |rs'| ensures HasLocation(out, rs'[k].locationId) {
        if k < |rs| { assert rs'[k] == rs[k]; }
      }
    }
  }

  /** Creating a review with a fresh id keeps the location table consistent with the reviews. */
  lemma InsertPreservesConsistency(rs: seq<Review>, locs: seq<Location>, r: Review, now: Instant, stamp: bool)
    requires Consistent(rs, locs)
    requires forall k :: 0 <= k < |rs| ==> rs[k].reviewId != r.reviewId
    ensures ReviewsAt(rs + [r], r.locationId) != []
    ensures Consistent(rs + [r], Upsert(locs, rs + [r], r, now, stamp))
  {
    if FindLocation(locs, r.locationId).None? {
      InsertAtNewLocation(rs, locs, r, now, stamp);
    } else {
      InsertAtExistingLocation(rs, locs, r, now, stamp);
    }
  }

  /** After a delete the location of the removed review was consistent: its row exists. */
  lemma DeletedReviewHasRow(rs: seq<Review>, locs: seq<Location>, p: nat)
    requires Consistent(rs, locs)
    requires p < |rs|
    ensures FindLocation(locs, rs[p].locationId).Some?
  {
    assert HasLocation(locs, rs[p].locationId);
  }

  /**
    Deleting a review of a consistent table: the location row exists, loses
    exactly that review (one fewer, the rating sum drops by its rating), and
    is removed exactly when it was the location's only review.
   */
  lemma DeleteRecountsLocation(rs: seq<Review>, locs: seq<Location>, id: string)
    requires Consistent(rs, locs)
    requires FindReview(rs, id).Some?
    ensures var p := FindReview(rs, id).value;
      var lid := rs[p].locationId;
      var rs' := WithoutReview(rs, id);
      var i := FindLocation(locs, lid);
      && i.Some?
      && |ReviewsAt(rs', lid)| == locs[i.value].reviewCount - 1
      && SumOfRatings(ReviewsAt(rs', lid)) == SumOfRatings(ReviewsAt(rs, lid)) - rs[p].rating
      && (ReviewsAt(rs', lid) == [] <==> locs[i.value].reviewCount == 1)
  {
    var p := FindReview(rs, id).value;
    WithoutUnique(rs, id, p);
    RemovalRecountsLocation(rs, p);
    DeletedReviewHasRow(rs, locs, p);
    assert Summarises(locs[FindLocation(locs, rs[p].locationId).value], rs);
  }

  lemma RemovalKeepsIdsDistinct(rs: seq<Review>, p: nat)
    requires DistinctReviewIds(rs) && p < |rs|
    ensures DistinctReviewIds(rs[..p] + rs[p + 1..])
  {
    var rs' := rs[..p] + rs[p + 1..];
    forall i, j | 0 <= i < j < |rs'| ensures rs'[i].reviewId != rs'[j].reviewId {
      var i', j' := if i < p then i else i + 1, if j < p then j else j + 1;
      assert rs'[i] == rs[i'] && rs'[j] == rs[j'];
    }
  }

  lemma RemovalKeepsLocationIdsDistinct(locs: seq<Location>, i: nat)
    requires DistinctLocationIds(locs) && i < |locs|
    ensures DistinctLocationIds(locs[..i] + locs[i + 1..])
  {
    var out := locs[..i] + locs[i + 1..];
    forall a, b | 0 <= a < b < |out| ensures out[a].locationId != out[b].locationId {
      var a', b' := if a < i then a else a + 1, if b < i then b else b + 1;
      assert out[a] == locs[a'] && out[b] == locs[b'];
    }
  }

  /** Every remaining review still had its row before the removal. */
  lemma RemainingReviewsHadRows(rs: seq<Review>, rs': seq<Review>, locs: seq<Location>, p: nat)
    requires p < |rs| && rs' == rs[..p] + rs[p + 1..]
    requires forall k :: 0 <= k < |rs| ==> HasLocation(locs, rs[k].locationId)
    ensures forall k :: 0 <= k < |rs'| ==> HasLocation(locs, rs'[k].locationId)
  {
    forall k | 0 <= k < |rs'| ensures HasLocation(locs, rs'[k].locationId) {
      assert rs'[k] == rs[if k < p then k else k + 1];
    }
  }

  /** Rows of the other locations summarise the same reviews after the removal. */
  lemma OtherRowsSurviveRemoval(rs: seq<Review>, locs: seq<Location>, p: nat, l: Location)
    requires p < |rs| && Summarises(l, rs) && l.locationId != rs[p].locationId
    ensures Summarises(l, rs[..p] + rs[p + 1..])
  {
    RemovalKeepsOtherLocations(rs, p, l.locationId);
  }

  /** When the last review of a location goes, dropping its row keeps the other rows summarising. */
  lemma DropRowSummaries(rs: seq<Review>, locs: seq<Location>, p: nat, i: nat, out: seq<Location>)
    requires p < |rs| && i < |locs| && locs[i].locationId == rs[p].locationId
    requires out == locs[..i] + locs[i + 1..]
    requires DistinctLocationIds(locs)
    requires forall j :: 0 <= j < |locs| ==> Summarises(locs[j], rs)
    ensures forall j :: 0 <= j < |out| ==> Summarises(out[j], rs[..p] + rs[p + 1..])
  {
    forall j | 0 <= j < |out| ensures Summarises(out[j], rs[..p] + rs[p + 1..]) {
      var j' := if j < i then j else j + 1;
      assert out[j] == locs[j'];
      OtherRowsSurviveRemoval(rs, locs, p, locs[j']);
    }
  }

  /** When the last review of a location goes, every remaining review finds its row among the rest. */
  lemma DropRowKeepsLocations(rs': seq<Review>, locs: seq<Location>, i: nat, out: seq<Location>)
    requires i < |locs| && out == locs[..i] + locs[i + 1..]
    requires forall k :: 0 <= k < |rs'| ==> rs'[k].locationId != locs[i].locationId
    requires forall k :: 0 <= k < |rs'| ==> HasLocation(locs, rs'[k].locationId)
    ensures forall k :: 0 <= k < |rs'| ==> HasLocation(out, rs'[k].locationId)
  {
    forall k | 0 <= k < |rs'| ensures HasLocation(out, rs'[k].locationId) {
      assert HasLocation(locs, rs'[k].locationId);
      var j :| 0 <= j < |locs| && locs[j].locationId == rs'[k].locationId;
      var j' := if j < i then j else j - 1;
      assert out[j'] == locs[j];
    }
  }

  lemma DeleteLastOfLocation(rs: seq<Review>, locs: seq<Location>, id: string, p: nat, i: nat)
    requires Consistent(rs, locs)
    requires p < |rs| && rs[p].reviewId == id
    requires i < |locs| && locs[i].locationId == rs[p].locationId
    requires ReviewsAt(rs[..p] + rs[p + 1..], rs[p].locationId) == []
    ensures Consistent(rs[..p] + rs[p + 1..], locs[..i] + locs[i + 1..])
  {
    var rs', out := rs[..p] + rs[p + 1..], locs[..i] + locs[i + 1..];
    RemovalKeepsIdsDistinct(rs, p);
    RemovalKeepsLocationIdsDistinct(locs, i);
    DropRowSummaries(rs, locs, p, i, out);
    RemainingReviewsHadRows(rs, rs', locs, p);
    forall k | 0 <= k < |rs'| ensures rs'[k].locationId != locs[i].locationId {
      ReviewsAtMembers(rs', locs[i].locationId, rs'[k]);
    }
    DropRowKeepsLocations(rs', locs, i, out);
  }

  lemma DeleteRecountsRow(rs: seq<Review>, locs: seq<Location>, id: string, p: nat, i: nat)
    requires Consistent(rs, locs)
    requires p < |rs| && rs[p].reviewId == id
    requires i < |locs| && locs[i].locationId == rs[p].locationId
    requires ReviewsAt(rs[..p] + rs[p + 1..], rs[p].locationId) != []
    ensures var rs' := rs[..p] + rs[p + 1..];
      var at := ReviewsAt(rs', rs[p].locationId);
      Consistent(rs', locs[i := locs[i].(reviewCount := |at|, averageRating := Mean(at))])
  {
    var rs' := rs[..p] + rs[p + 1..];
    var at := ReviewsAt(rs', rs[p].locationId);
    var out := locs[i := locs[i].(reviewCount := |at|, averageRating := Mean(at))];
    RemovalKeepsIdsDistinct(rs, p);
    assert DistinctLocationIds(out) by {
      assert forall j :: 0 <= j < |out| ==> out[j].locationId == locs[j].locationId;
    }
    forall j | 0 <= j < |out| ensures Summarises(out[j], rs') {
      if j != i {
        OtherRowsSurviveRemoval(rs, locs, p, locs[j]);
      }
    }
    RemainingReviewsHadRows(rs, rs', locs, p);
    LocationsKept(rs', locs, out);
  }

  /** Deleting an existing review keeps the location table consistent with the reviews. */
  lemma DeletePreservesConsistency(rs: seq<Review>, locs: seq<Location>, id: string)
    requires Consistent(rs, locs)
    requires FindReview(rs, id).Some?
    ensures var p := FindReview(rs, id).value;
      var rs' := WithoutReview(rs, id);
      && Recount(locs, rs', rs[p].locationId).Some?
      && Consistent(rs', Recount(locs, rs', rs[p].locationId).value)
  {
    var p := FindReview(rs, id).value;
    var lid := rs[p].locationId;
    WithoutUnique(rs, id, p);
    var rs' := rs[..p] + rs[p + 1..];
    DeletedReviewHasRow(rs, locs, p);
    var i := FindLocation(locs, lid).value;
    if ReviewsAt(rs', lid) == [] {
      WithoutLocationUnique(locs, lid, i);
      DeleteLastOfLocation(rs, locs, id, p, i);
    } else {
      DeleteRecountsRow(rs, locs, id, p, i);
    }
  }

  // ---------------------------------------------------------------------------
  // The two tables and their mutators

  class ReviewStore {
    /** The reviews snapshot, in stored order. */
    var reviews: seq<Review>
    /** The locations snapshot, in stored order. */
    var locations: seq<Location>

    constructor ()
      ensures reviews == [] && locations == []
    {
      reviews := [];
      locations := [];
    }

    /**
      Appends `r` and upserts its location: a new row (count 1, mean its
      rating) or the first matching row recounted over all reviews of that id.
      `stamp` says whether the location's `updated_at` is written (the HTTP
      endpoint does, the chat handler does not).
     */
    method Insert(r: Review, now: Instant, stamp: bool)
      modifies this
      ensures reviews == old(reviews) + [r]
      ensures ReviewsAt(reviews, r.locationId) != []
      ensures locations == Upsert(old(locations), reviews, r, now, stamp)
      ensures old(Consistent(reviews, locations)) && (forall k :: 0 <= k < |old(reviews)| ==> old(reviews)[k].reviewId != r.reviewId)
              ==> Consistent(reviews, locations)
    {
      ghost var rs, locs := reviews, locations;
      reviews := reviews + [r];
      ReviewsAtAppend(rs, r, r.locationId);
      var found := FindLocation(locations, r.locationId);
      match found {
        case None =>
          var row := Location(r.locationId, r.latitude, r.longitude, now,
                              if stamp then Some(now) else None, 1, r.rating as real);
          locations := locations + [row];
        case Some(idx) =>
          var at := ReviewsAt(reviews, r.locationId);
          locations := locations[idx := locations[idx].(reviewCount := |at|)];
          locations := locations[idx := locations[idx].(averageRating := Mean(at))];
          if stamp {
            locations := locations[idx := locations[idx].(updatedAt := Some(now))];
          }
      }
      if Consistent(rs, locs) && (forall k :: 0 <= k < |rs| ==> rs[k].reviewId != r.reviewId) {
        InsertPreservesConsistency(rs, locs, r, now, stamp);
      }
    }

    /**
      `create_review`: appends a review with the fresh id `id`, `created_at ==
      updated_at == now` and tags defaulting to `[]`; the rows before it are
      unchanged. Its location is upserted with `updated_at` set.
     */
    method CreateReview(input: ReviewInput, id: string, now: Instant) returns (r: Review)
      modifies this
      ensures r == NewReview(input, id, now)
      ensures r.reviewId == id && r.createdAt == r.updatedAt == now
      ensures input.tags.None? ==> r.tags == []
      ensures |reviews| == |old(reviews)| + 1 && reviews[..|old(reviews)|] == old(reviews)
      ensures reviews[|old(reviews)|] == r
      ensures locations == Upsert(old(locations), reviews, r, now, true)
      ensures old(Consistent(reviews, locations)) && (forall k :: 0 <= k < |old(reviews)| ==> old(reviews)[k].reviewId != id)
              ==> Consistent(reviews, locations)
    {
      r := NewReview(input, id, now);
      Insert(r, now, true);
    }

    /**
      `delete_review`: 404 with both tables unchanged when no review has the
      id. Otherwise every row with that id is removed and the location of the
      first one is recounted or removed; when that location has no row the
      recount raises (500) after the reviews were already rewritten. A
      consistent store stays consistent and never reaches that 500.
     */
    method DeleteReview(id: string) returns (res: Result<string>)
      modifies this
      ensures FindReview(old(reviews), id).None? ==>
        res == NotFound && reviews == old(reviews) && locations == old(locations)
      ensures FindReview(old(reviews), id).Some? ==>
        var lid := old(reviews)[FindReview(old(reviews), id).value].locationId;
        && reviews == WithoutReview(old(reviews), id)
        && (Recount(old(locations), reviews, lid).Some? ==>
              res == Ok(id) && locations == Recount(old(locations), reviews, lid).value)
        && (Recount(old(locations), reviews, lid).None? ==>
              res == InternalError && locations == old(locations))
      ensures old(Consistent(reviews, locations)) ==> Consistent(reviews, locations) && res != InternalError
    {
      ghost var rs, locs := reviews, locations;
      var p := FindReview(reviews, id);
      if p.None? {
        return NotFound;
      }
      var lid := reviews[p.value].locationId;
      reviews := WithoutReview(reviews, id);
      var remaining := ReviewsAt(reviews, lid);
      if remaining == [] {
        locations := WithoutLocation(locations, lid);
      } else {
        var idx := FindLocation(locations, lid);
        if idx.None? {
          return InternalError;
        }
        locations := locations[idx.value := locations[idx.value].(reviewCount := |remaining|)];
        locations := locations[idx.value := locations[idx.value].(averageRating := Mean(remaining))];
      }
      res := Ok(id);
      if Consistent(rs, locs) {
        DeletePreservesConsistency(rs, locs, id);
      }
    }
  }

  // ---------------------------------------------------------------------------
  // Read endpoints

  datatype ReviewResponse = ReviewResponse(total: nat, reviews: seq<Review>)

  /** `get_reviews_by_location`: exactly the reviews with that id, in stored order. */
  method ReviewsByLocation(rs: seq<Review>, lid: string) returns (resp: ReviewResponse)
    ensures resp.reviews == ReviewsAt(rs, lid)
    ensures resp.total == |resp.reviews| <= |rs|
    ensures forall x :: x in resp.reviews <==> x in rs && x.locationId == lid
  {
    var out: seq<Review> := [];
    for i := 0 to |rs|
      invariant out == ReviewsAt(rs[..i], lid)
    {
      assert rs[..i + 1][..i] == rs[..i];
      if rs[i].locationId == lid {
        out := out + [rs[i]];
      }
    }
    assert rs[..|rs|] == rs;
    forall x ensures x in out <==> x in rs && x.locationId == lid {
      ReviewsAtMembers(rs, lid, x);
    }
    ReviewsAtBounded(rs, lid);
    resp := ReviewResponse(|out|, out);
  }

  /** `get_review_by_id`: the first review with that id, or 404. */
  function ReviewById(rs: seq<Review>, id: string): (r: Result<Review>)
    ensures r.Ok? || r == NotFound
    ensures r == NotFound <==> forall k :: 0 <= k < |rs| ==> rs[k].reviewId != id
    ensures r.Ok? ==> r.value in rs && r.value.reviewId == id
    ensures r.Ok? ==> exists k :: 0 <= k < |rs| && r.value == rs[k] && forall j :: 0 <= j < k ==> rs[j].reviewId != id
  {
    match FindReview(rs, id)
    case None => NotFound
    case Some(p) => Ok(rs[p])
  }

  /** `LocationReview`: a location's row fields with its review list. */
  datatype LocationReview = LocationReview(locationId: string, latitude: real, longitude: real,
                                           reviewCount: nat, averageRating: real, reviews: seq<Review>)

  /**
    `get_location_with_reviews`: 404 when no location row has the id;
    otherwise the first such row with exactly the reviews sharing its id.
   */
  method LocationWithReviews(locs: seq<Location>, rs: seq<Review>, lid: string) returns (res: Result<LocationReview>)
    ensures res.Ok? || res == NotFound
    ensures res == NotFound <==> forall j :: 0 <= j < |locs| ==> locs[j].locationId != lid
    ensures res.Ok? ==>
      var loc := locs[FindLocation(locs, lid).value];
      && res.value.locationId == lid
      && res.value.latitude == loc.latitude && res.value.longitude == loc.longitude
      && res.value.reviewCount == loc.reviewCount
      && res.value.averageRating == loc.averageRating
      && res.value.reviews == ReviewsAt(rs, lid)
  {
    var found := FindLocation(locs, lid);
    if found.None? {
      return NotFound;
    }
    var loc := locs[found.value];
    var listed := ReviewsByLocation(rs, lid);
    res := Ok(LocationReview(loc.locationId, loc.latitude, loc.longitude, loc.reviewCount,
                             loc.averageRating, listed.reviews));
  }

  /** On a consistent store the reported count and mean are those of the listed reviews. */
  lemma LocationReviewAgrees(locs: seq<Location>, rs: seq<Review>, lid: string)
    requires Consistent(rs, locs)
    requires FindLocation(locs, lid).Some?
    ensures var loc := locs[FindLocation(locs, lid).value];
      ReviewsAt(rs, lid) != [] && loc.reviewCount == |ReviewsAt(rs, lid)| && loc.averageRating == Mean(ReviewsAt(rs, lid))
  {
    assert Summarises(locs[FindLocation(locs, lid).value], rs);
  }

  /** The location rows within `radius` miles of `center` (inclusive), in stored order. */
  function LocationsWithin(locs: seq<Location>, center: Point, radius: real, dist: Distance): seq<Location>
  {
    if locs == [] then []
    else
      var last := locs[|locs| - 1];
      LocationsWithin(locs[..|locs| - 1], center, radius, dist)
        + (if dist(center, Point(last.latitude, last.longitude)) <= radius then [last] else [])
  }

  lemma {:induction false} LocationsWithinMembers(locs: seq<Location>, center: Point, radius: real,
                                                  dist: Distance, x: Location)
    ensures x in LocationsWithin(locs, center, radius, dist) <==>
      x in locs && dist(center, Point(x.latitude, x.longitude)) <= radius
  {
    if locs != [] {
      LocationsWithinMembers(locs[..|locs| - 1], center, radius, dist, x);
      assert locs == locs[..|locs| - 1] + [locs[|locs| - 1]];
    }
  }

  lemma {:induction false} LocationsWithinBounded(locs: seq<Location>, center: Point, radius: real, dist: Distance)
    ensures |LocationsWithin(locs, center, radius, dist)| <= |locs|
  {
    if locs != [] {
      LocationsWithinBounded(locs[..|locs| - 1], center, radius, dist);
    }
  }

  datatype LocationsResponse = LocationsResponse(total: nat, locations: seq<Location>)

  /** `get_nearby_locations`: the rows within the radius, in stored order. */
  method NearbyLocations(locs: seq<Location>, center: Point, radius: real, dist: Distance)
    returns (resp: LocationsResponse)
    ensures resp.locations == LocationsWithin(locs, center, radius, dist)
    ensures resp.total == |resp.locations| <= |locs|
    ensures forall x :: x in resp.locations <==> x in locs && dist(center, Point(x.latitude, x.longitude)) <= radius
  {
    var out: seq<Location> := [];
    for i := 0 to |locs|
      invariant out == LocationsWithin(locs[..i], center, radius, dist)
    {
      assert locs[..i + 1][..i] == locs[..i];
      var miles := dist(center, Point(locs[i].latitude, locs[i].longitude));
      if miles <= radius {
        out := out + [locs[i]];
      }
    }
    assert locs[..|locs|] == locs;
    forall x ensures x in out <==> x in locs && dist(center, Point(x.latitude, x.longitude)) <= radius {
      LocationsWithinMembers(locs, center, radius, dist, x);
    }
    LocationsWithinBounded(locs, center, radius, dist);
    resp := LocationsResponse(|out|, out);
  }
}
