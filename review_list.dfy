/** The review list of the product page (`ProductReviews`): the star
    histogram, the rating filter with its four orders, and the write-review
    form. Review dates are numbers of milliseconds. */
module ReviewList {
  import opened Common
  import Seqs

  /** The fields of a review the component reads. */
  datatype ReviewView = ReviewView(
    id: string,
    userName: string,
    rating: int,
    title: string,
    comment: string,
    date: int,
    helpful: int,
    verified: bool,
    images: seq<string>)

  // ---------------------------------------------------------------------
  // The histogram

  /** How many reviews carry `rating`. */
  function CountRating(reviews: seq<ReviewView>, rating: int): (n: nat)
    ensures n <= |reviews|
  {
    if reviews == [] then 0
    else CountRating(reviews[..|reviews| - 1], rating) + (if reviews[|reviews| - 1].rating == rating then 1 else 0)
  }

  predicate RatingsInRange(reviews: seq<ReviewView>)
  {
    forall i | 0 <= i < |reviews| :: 1 <= reviews[i].rating <= 5
  }

  /** With every rating in 1..5, the five counts account for every review. */
  lemma {:induction false} CountsCoverAll(reviews: seq<ReviewView>)
    requires RatingsInRange(reviews)
    ensures CountRating(reviews, 1) + CountRating(reviews, 2) + CountRating(reviews, 3)
          + CountRating(reviews, 4) + CountRating(reviews, 5) == |reviews|
  {
    if reviews != [] {
      var init := reviews[..|reviews| - 1];
      assert RatingsInRange(init) by {
        forall i | 0 <= i < |init| ensures 1 <= init[i].rating <= 5 {
          assert init[i] == reviews[i];
        }
      }
      CountsCoverAll(init);
    }
  }

  /** `getRatingDistribution`: five counters bumped once per review, then
      reversed in place so that five stars come first. */
  method GetRatingDistribution(reviews: seq<ReviewView>) returns (distribution: seq<int>)
    requires RatingsInRange(reviews)
    ensures |distribution| == 5
    ensures forall k | 0 <= k < 5 :: distribution[k] == CountRating(reviews, 5 - k)
    ensures distribution[0] + distribution[1] + distribution[2] + distribution[3] + distribution[4] == |reviews|
  {
    var counts := new int[5](_ => 0);
    var i := 0;
    while i < |reviews|
      invariant 0 <= i <= |reviews|
      invariant forall r | 1 <= r <= 5 :: counts[r - 1] == CountRating(reviews[..i], r)
    {
      assert reviews[..i + 1][..i] == reviews[..i];
      counts[reviews[i].rating - 1] := counts[reviews[i].rating - 1] + 1;
      i := i + 1;
    }
    assert reviews[..i] == reviews;
    counts[0], counts[4] := counts[4], counts[0];
    counts[1], counts[3] := counts[3], counts[1];
    distribution := counts[..];
    CountsCoverAll(reviews);
  }

  // ---------------------------------------------------------------------
  // Filter and sort

  datatype SortKey = Newest | Oldest | Helpful | HighestRating

  /** The comparator of each order as "may come before": newest and oldest
      by date, most helpful and highest rating descending. Each is total and
      transitive. */
  function Before(key: SortKey): (le: (ReviewView, ReviewView) -> bool)
    ensures Seqs.TotalPreorder(le)
  {
    match key
    case Newest => (a: ReviewView, b: ReviewView) => a.date >= b.date
    case Oldest => (a: ReviewView, b: ReviewView) => a.date <= b.date
    case Helpful => (a: ReviewView, b: ReviewView) => a.helpful >= b.helpful
    case HighestRating => (a: ReviewView, b: ReviewView) => a.rating >= b.rating
  }

  /** `filterRating === null || review.rating === filterRating`. */
  function KeepRating(filterRating: Option<int>): (keep: ReviewView -> bool)
    ensures filterRating.None? ==> forall v :: keep(v)
    ensures filterRating.Some? ==> forall v :: keep(v) <==> v.rating == filterRating.value
  {
    (review: ReviewView) => filterRating.None? || review.rating == filterRating.value
  }

  /** `filteredAndSortedReviews`: the filter, then a stable sort of the
      filtered copy; reviews the order ranks level keep their list order. */
  function FilteredAndSorted(reviews: seq<ReviewView>, filterRating: Option<int>, key: SortKey): (r: seq<ReviewView>)
    ensures forall x :: x in r <==> x in reviews && (filterRating.None? || x.rating == filterRating.value)
    ensures multiset(r) == multiset(Seqs.Filter(reviews, KeepRating(filterRating)))
    ensures |r| <= |reviews|
    ensures key == Newest ==> forall i, j | 0 <= i < j < |r| :: r[i].date >= r[j].date
    ensures key == Oldest ==> forall i, j | 0 <= i < j < |r| :: r[i].date <= r[j].date
    ensures key == Helpful ==> forall i, j | 0 <= i < j < |r| :: r[i].helpful >= r[j].helpful
    ensures key == HighestRating ==> forall i, j | 0 <= i < j < |r| :: r[i].rating >= r[j].rating
    ensures Seqs.StableFor(Before(key), r, Seqs.Filter(reviews, KeepRating(filterRating)))
  {
    var kept := Seqs.Filter(reviews, KeepRating(filterRating));
    var sorted := Seqs.SortBy(kept, Before(key));
    Seqs.SortByStable(kept, Before(key));
    assert forall x :: x in sorted <==> x in kept by {
      forall x ensures x in sorted <==> x in kept {
        assert x in sorted <==> x in multiset(sorted);
        assert x in kept <==> x in multiset(kept);
      }
    }
    sorted
  }

  /** Without a rating filter every review is shown. */
  lemma NoFilterKeepsAll(reviews: seq<ReviewView>, key: SortKey)
    ensures multiset(FilteredAndSorted(reviews, None, key)) == multiset(reviews)
  {
    Seqs.FilterAll(reviews, KeepRating(None));
  }

  // ---------------------------------------------------------------------
  // The write-review form

  /** The signed-in user as the form reads it. */
  datatype Author = Author(id: string, fullName: string, avatarUrl: Option<string>)

  /** What the form hands to `onAddReview`. */
  datatype Submission = Submission(
    userId: string,
    userName: string,
    userAvatar: Option<string>,
    rating: int,
    title: string,
    comment: string,
    verified: bool,
    images: seq<string>)

  /** The form state and the reviews handed to `onAddReview` so far. */
  class ReviewForm {
    var rating: int
    var title: string
    var comment: string
    var images: seq<string>
    var showWriteReview: bool
    var submitted: seq<Submission>

    /** The initial state: five stars, empty fields, form hidden. */
    constructor ()
      ensures rating == 5 && title == "" && comment == "" && images == []
      ensures !showWriteReview && submitted == []
    {
      rating, title, comment, images := 5, "", "", [];
      showWriteReview := false;
      submitted := [];
    }

    /** The submit button is disabled while the title or the comment is
        empty. */
    predicate SubmitDisabled()
      reads this
    {
      title == "" || comment == ""
    }

    /** `handleSubmitReview`: nothing happens without a user or a handler;
        otherwise the review is handed on, verified, and the form resets and
        hides. */
    method HandleSubmitReview(user: Option<Author>, hasHandler: bool)
      modifies this
      ensures user.None? || !hasHandler ==>
        && rating == old(rating) && title == old(title) && comment == old(comment) && images == old(images)
        && showWriteReview == old(showWriteReview) && submitted == old(submitted)
      ensures user.Some? && hasHandler ==>
        && submitted == old(submitted) + [Submission(user.value.id, user.value.fullName, user.value.avatarUrl,
                                                     old(rating), old(title), old(comment), true, old(images))]
        && rating == 5 && title == "" && comment == "" && images == []
        && !showWriteReview
        && SubmitDisabled()
    {
      if user.None? || !hasHandler {
        return;
      }
      var review := Submission(user.value.id, user.value.fullName, user.value.avatarUrl,
                               rating, title, comment, true, images);
      submitted := submitted + [review];
      rating, title, comment, images := 5, "", "", [];
      showWriteReview := false;
    }
  }
}
