/** The review rules of the backend (`ProductReviewService`): one review per
    product and user, owner-only edits, owner-or-admin deletes, the helpful
    counter and the rating distribution of a product summary. The review
    table is a finite map from review id to review. */
module Reviews {
  import opened Common

  const INT_MIN: int := -0x8000_0000
  const INT_MAX: int := 0x7fff_ffff

  predicate IsInt32(x: int)
  {
    INT_MIN <= x <= INT_MAX
  }

  /** Java `int` addition: the exact sum, wrapped into 32 bits. */
  function AddInt32(a: int, b: int): (r: int)
    requires IsInt32(a) && IsInt32(b)
    ensures IsInt32(r)
    ensures (r - (a + b)) % 0x1_0000_0000 == 0
  {
    var s := a + b;
    if s > INT_MAX then s - 0x1_0000_0000
    else if s < INT_MIN then s + 0x1_0000_0000
    else s
  }

  /** A stored `ProductReview`. `updatedAt` is `None` until the service
      stamps an edit. */
  datatype Review = Review(
    userId: int,
    productId: string,
    rating: int,
    title: string,
    comment: string,
    images: seq<string>,
    isVerified: bool,
    helpfulCount: int,
    updatedAt: Option<int>)

  /** The `RuntimeException`s the service throws; each constructor's
      comment gives the exception's message. */
  datatype ReviewError =
    | AlreadyReviewed     // "You have already reviewed this product"
    | ReviewNotFound      // "Review not found"
    | NotOwnReviewUpdate  // "You can only update your own reviews"
    | NotOwnReviewDelete  // "You can only delete your own reviews"

  /** The users who reviewed a product, whichever row holds the review. */
  ghost function ReviewersOf(table: map<int, Review>, productId: string): set<int>
  {
    set id | id in table && table[id].productId == productId :: table[id].userId
  }

  /** `existsByProductIdAndUser`: the user is among the product's reviewers. */
  predicate HasReviewBy(table: map<int, Review>, productId: string, userId: int): (r: bool)
    ensures r <==> userId in ReviewersOf(table, productId)
  {
    exists id | id in table :: table[id].productId == productId && table[id].userId == userId
  }

  /** No product carries two reviews by the same user. */
  ghost predicate OnePerPair(table: map<int, Review>)
  {
    forall a, b | a in table && b in table ::
      table[a].productId == table[b].productId && table[a].userId == table[b].userId ==> a == b
  }

  /** The review `createReview` saves: verified, with the given images and no
      helpful votes yet. */
  function NewReview(user: Principal, productId: string, rating: int, title: string, comment: string,
                     images: seq<string>): (r: Review)
    ensures r.userId == user.id && r.productId == productId
    ensures r.rating == rating && r.title == title && r.comment == comment && r.images == images
    ensures r.isVerified && r.helpfulCount == 0 && r.updatedAt.None?
  {
    Review(user.id, productId, rating, title, comment, images, true, 0, None)
  }

  /** The setters of `updateReview`: only the four edited fields and the
      update time change. */
  function Edited(review: Review, rating: int, title: string, comment: string, images: seq<string>,
                  now: int): (r: Review)
    ensures r.rating == rating && r.title == title && r.comment == comment && r.images == images
    ensures r.updatedAt == Some(now)
    ensures r.userId == review.userId && r.productId == review.productId
    ensures r.isVerified == review.isVerified && r.helpfulCount == review.helpfulCount
  {
    review.(rating := rating, title := title, comment := comment, images := images, updatedAt := Some(now))
  }

  /** The guard of `deleteReview`: the caller wrote the review or is an admin. */
  predicate MayDelete(review: Review, user: Principal): (r: bool)
    ensures user.role == ADMIN ==> r
    ensures user.role != ADMIN ==> (r <==> review.userId == user.id)
  {
    review.userId == user.id || user.role == ADMIN
  }

  /** `markReviewAsHelpful` on one review: one more vote, in Java `int`. */
  function Helpful(review: Review): (r: Review)
    requires IsInt32(review.helpfulCount)
    ensures IsInt32(r.helpfulCount)
    ensures r == review.(helpfulCount := r.helpfulCount)
    ensures review.helpfulCount < INT_MAX ==> r.helpfulCount == review.helpfulCount + 1
    ensures review.helpfulCount == INT_MAX ==> r.helpfulCount == INT_MIN
  {
    review.(helpfulCount := AddInt32(review.helpfulCount, 1))
  }

  // ---------------------------------------------------------------------
  // Table lemmas

  /** Saving a review for a pair that has none keeps one review per pair,
      and afterwards the pair has one. */
  lemma {:induction false} AddKeepsOnePerPair(table: map<int, Review>, id: int, review: Review)
    requires OnePerPair(table)
    requires id !in table
    requires !HasReviewBy(table, review.productId, review.userId)
    ensures OnePerPair(table[id := review])
    ensures HasReviewBy(table[id := review], review.productId, review.userId)
  {
    var t := table[id := review];
    forall k | k in table
      ensures table[k].productId != review.productId || table[k].userId != review.userId
    {
    }
    assert t[id] == review;
  }

  /** Replacing a review by one for the same product and user keeps one
      review per pair. */
  lemma {:induction false} ReplaceKeepsOnePerPair(table: map<int, Review>, id: int, review: Review)
    requires OnePerPair(table)
    requires id in table
    requires review.productId == table[id].productId && review.userId == table[id].userId
    ensures OnePerPair(table[id := review])
  {
    var t := table[id := review];
    forall a, b | a in t && b in t && t[a].productId == t[b].productId && t[a].userId == t[b].userId
      ensures a == b
    {
      assert table[a].productId == t[a].productId && table[a].userId == t[a].userId;
      assert table[b].productId == t[b].productId && table[b].userId == t[b].userId;
    }
  }

  /** Removing a review leaves at most one review per pair, and the removed
      review's pair free to review again. */
  lemma {:induction false} RemoveFreesPair(table: map<int, Review>, id: int)
    requires OnePerPair(table)
    requires id in table
    ensures OnePerPair(table - {id})
    ensures !HasReviewBy(table - {id}, table[id].productId, table[id].userId)
  {
    var t := table - {id};
    forall k | k in t
      ensures t[k].productId != table[id].productId || t[k].userId != table[id].userId
    {
      assert k in table && k != id && t[k] == table[k];
    }
  }

  // ---------------------------------------------------------------------
  // Rating distribution

  /** The value the second loop of the rating summary leaves under `rating`:
      the count of the last row for that rating, or 0 when no row has it. */
  function CountFor(rows: seq<(int, int)>, rating: int): int
  {
    if rows == [] then 0
    else if rows[|rows| - 1].0 == rating then rows[|rows| - 1].1
    else CountFor(rows[..|rows| - 1], rating)
  }

  function RatingsIn(rows: seq<(int, int)>): set<int>
  {
    set j | 0 <= j < |rows| :: rows[j].0
  }

  /** The rating distribution of `getProductRatingSummary`: every rating 1..5
      is present, starting at 0, and each row of the repository's
      `(rating, count)` list overwrites its rating's entry. */
  method RatingDistribution(rows: seq<(int, int)>) returns (dist: map<int, int>)
    ensures dist.Keys == {1, 2, 3, 4, 5} + RatingsIn(rows)
    ensures forall k | k in dist :: dist[k] == CountFor(rows, k)
  {
    dist := map[];
    var i := 1;
    while i <= 5
      invariant 1 <= i <= 6
      invariant forall k :: k in dist <==> 1 <= k < i
      invariant forall k | k in dist :: dist[k] == 0
    {
      dist := dist[i := 0];
      i := i + 1;
    }
    assert dist.Keys == {1, 2, 3, 4, 5} by {
      forall k | k in dist.Keys
        ensures k in {1, 2, 3, 4, 5}
      {
        assert 1 <= k <= 5;
      }
      assert 1 in dist && 2 in dist && 3 in dist && 4 in dist && 5 in dist;
    }
    var j := 0;
    while j < |rows|
      invariant 0 <= j <= |rows|
      invariant dist.Keys == {1, 2, 3, 4, 5} + RatingsIn(rows[..j])
      invariant forall k | k in dist :: dist[k] == CountFor(rows[..j], k)
    {
      assert rows[..j + 1][..j] == rows[..j];
      assert RatingsIn(rows[..j + 1]) == RatingsIn(rows[..j]) + {rows[j].0} by {
        forall x | x in RatingsIn(rows[..j + 1])
          ensures x in RatingsIn(rows[..j]) + {rows[j].0}
        {
          var m :| 0 <= m < j + 1 && rows[..j + 1][m].0 == x;
          if m < j { assert rows[..j][m].0 == x; }
        }
        forall x | x in RatingsIn(rows[..j])
          ensures x in RatingsIn(rows[..j + 1])
        {
          var m :| 0 <= m < j && rows[..j][m].0 == x;
          assert rows[..j + 1][m].0 == x;
        }
        assert rows[..j + 1][j].0 == rows[j].0;
      }
      dist := dist[rows[j].0 := rows[j].1];
      j := j + 1;
    }
    assert rows[..j] == rows;
  }

  /** What the repository's `GROUP BY rating` returns for a product whose
      reviews carry the ratings in `bag`: one row per rating that occurs,
      holding the number of reviews with that rating. */
  ghost predicate GroupedCounts(rows: seq<(int, int)>, bag: multiset<int>)
  {
    && (forall i, j | 0 <= i < j < |rows| :: rows[i].0 != rows[j].0)
    && (forall i | 0 <= i < |rows| :: rows[i].1 == bag[rows[i].0])
    && (forall x | x in bag :: x in RatingsIn(rows))
  }

  lemma {:induction false} CountForRow(rows: seq<(int, int)>, i: int)
    requires 0 <= i < |rows|
    requires forall j | 0 <= j < |rows| && j != i :: rows[j].0 != rows[i].0
    ensures CountFor(rows, rows[i].0) == rows[i].1
  {
    if i != |rows| - 1 {
      var init := rows[..|rows| - 1];
      assert init[i] == rows[i];
      forall j | 0 <= j < |init| && j != i
        ensures init[j].0 != init[i].0
      {
        assert init[j] == rows[j];
      }
      CountForRow(init, i);
    }
  }

  lemma {:induction false} CountForAbsent(rows: seq<(int, int)>, rating: int)
    requires rating !in RatingsIn(rows)
    ensures CountFor(rows, rating) == 0
  {
    if rows != [] {
      var init := rows[..|rows| - 1];
      assert rows[|rows| - 1].0 in RatingsIn(rows);
      forall x | x in RatingsIn(init)
        ensures x in RatingsIn(rows)
      {
        var m :| 0 <= m < |init| && init[m].0 == x;
        assert rows[m].0 == x;
      }
      CountForAbsent(init, rating);
    }
  }

  /** Under the repository's meaning, every entry of the distribution is the
      number of the product's reviews with that rating; for 1..5 it is 0 when
      there are none. */
  lemma DistributionCountsReviews(rows: seq<(int, int)>, bag: multiset<int>, rating: int)
    requires GroupedCounts(rows, bag)
    ensures CountFor(rows, rating) == bag[rating]
  {
    if rating in RatingsIn(rows) {
      var i :| 0 <= i < |rows| && rows[i].0 == rating;
      CountForRow(rows, i);
    } else {
      CountForAbsent(rows, rating);
    }
  }

  // ---------------------------------------------------------------------
  // The service

  /** `ProductReviewService` over its review table. `nextId` stands for the
      database's id generator. */
  class ReviewService {
    var reviews: map<int, Review>
    var nextId: int

    ghost predicate Valid()
      reads this
    {
      && OnePerPair(reviews)
      && (forall id | id in reviews :: id < nextId)
      && (forall id | id in reviews :: IsInt32(reviews[id].helpfulCount))
    }

    constructor ()
      ensures Valid() && reviews == map[]
    {
      reviews := map[];
      nextId := 1;
    }

    /** `canUserReviewProduct`. */
    function CanUserReviewProduct(user: Principal, productId: string): (r: bool)
      reads this
      ensures r <==> user.id !in ReviewersOf(reviews, productId)
    {
      !HasReviewBy(reviews, productId, user.id)
    }

    /** `createReview`: refused exactly when the user already reviewed the
      product; in both cases the user cannot review it again afterwards. */
    method CreateReview(user: Principal, productId: string, rating: int, title: string, comment: string,
                        images: seq<string>) returns (r: Result<int, ReviewError>)
      requires Valid()
      modifies this
      ensures Valid()
      ensures r.Err? <==> !old(CanUserReviewProduct(user, productId))
      ensures r.Err? ==> r.error == AlreadyReviewed && reviews == old(reviews)
      ensures r.Ok? ==>
        && r.value !in old(reviews)
        && reviews == old(reviews)[r.value := NewReview(user, productId, rating, title, comment, images)]
      ensures !CanUserReviewProduct(user, productId)
    {
      if HasReviewBy(reviews, productId, user.id) {
        return Err(AlreadyReviewed);
      }
      var review := NewReview(user, productId, rating, title, comment, images);
      AddKeepsOnePerPair(reviews, nextId, review);
      reviews := reviews[nextId := review];
      r := Ok(nextId);
      nextId := nextId + 1;
    }

    /** `updateReview`, with the clock reading as a parameter. */
    method UpdateReview(reviewId: int, user: Principal, rating: int, title: string, comment: string,
                        images: seq<string>, now: int) returns (r: Result<Review, ReviewError>)
      requires Valid()
      modifies this
      ensures Valid() && nextId == old(nextId)
      ensures reviewId !in old(reviews) ==> r == Err(ReviewNotFound) && reviews == old(reviews)
      ensures reviewId in old(reviews) && old(reviews)[reviewId].userId != user.id ==>
        r == Err(NotOwnReviewUpdate) && reviews == old(reviews)
      ensures reviewId in old(reviews) && old(reviews)[reviewId].userId == user.id ==>
        && r == Ok(Edited(old(reviews)[reviewId], rating, title, comment, images, now))
        && reviews == old(reviews)[reviewId := r.value]
    {
      if reviewId !in reviews {
        return Err(ReviewNotFound);
      }
      var review := reviews[reviewId];
      if review.userId != user.id {
        return Err(NotOwnReviewUpdate);
      }
      var edited := Edited(review, rating, title, comment, images, now);
      ReplaceKeepsOnePerPair(reviews, reviewId, edited);
      reviews := reviews[reviewId := edited];
      r := Ok(edited);
    }

    /** `deleteReview`. */
    method DeleteReview(reviewId: int, user: Principal) returns (r: Result<(), ReviewError>)
      requires Valid()
      modifies this
      ensures Valid() && nextId == old(nextId)
      ensures reviewId !in old(reviews) ==> r == Err(ReviewNotFound) && reviews == old(reviews)
      ensures reviewId in old(reviews) && !MayDelete(old(reviews)[reviewId], user) ==>
        r == Err(NotOwnReviewDelete) && reviews == old(reviews)
      ensures reviewId in old(reviews) && MayDelete(old(reviews)[reviewId], user) ==>
        && r == Ok(())
        && reviews == old(reviews) - {reviewId}
        && CanUserReviewProduct(Principal(old(reviews)[reviewId].userId, USER), old(reviews)[reviewId].productId)
    {
      if reviewId !in reviews {
        return Err(ReviewNotFound);
      }
      var review := reviews[reviewId];
      if !MayDelete(review, user) {
        return Err(NotOwnReviewDelete);
      }
      RemoveFreesPair(reviews, reviewId);
      reviews := reviews - {reviewId};
      r := Ok(());
    }

    /** `markReviewAsHelpful`. */
    method MarkReviewAsHelpful(reviewId: int) returns (r: Result<Review, ReviewError>)
      requires Valid()
      modifies this
      ensures Valid() && nextId == old(nextId)
      ensures reviewId !in old(reviews) ==> r == Err(ReviewNotFound) && reviews == old(reviews)
      ensures reviewId in old(reviews) ==>
        && r == Ok(Helpful(old(reviews)[reviewId]))
        && reviews == old(reviews)[reviewId := r.value]
    {
      if reviewId !in reviews {
        return Err(ReviewNotFound);
      }
      var review := Helpful(reviews[reviewId]);
      ReplaceKeepsOnePerPair(reviews, reviewId, review);
      reviews := reviews[reviewId := review];
      r := Ok(review);
    }
  }
}
