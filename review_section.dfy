/**
 The review list of the `ReviewSection` component (shown for one product, the
 `productId` prop) and the three updaters its WebSocket handlers pass to
 `setReviews`. The state hook, the fetch and the rendering are not part of
 this model.
 */
module ReviewSection {
  import opened ArrayOps
  import opened Records

  /** A review record; `id` is the JSON field `_id`. */
  datatype Review = Review(id: ObjectId, productId: ObjectId, userName: string, content: string, createdAt: string)

  /** Payload of `new-review`. */
  datatype NewReview = NewReview(review: Review)

  /** Payload of `review_updated`. */
  datatype ReviewUpdated = ReviewUpdated(reviewId: ObjectId, content: string)

  /** Payload of `review_deleted`. */
  datatype ReviewDeleted = ReviewDeleted(reviewId: ObjectId)

  /**
   `handleNewReview`: a review for the product on show goes to the front; a
   review for another product leaves the list as it was.
   */
  function Added(prev: seq<Review>, productId: ObjectId, data: NewReview): (r: seq<Review>)
    ensures data.review.productId == productId ==> |r| == |prev| + 1 && r[0] == data.review && r[1..] == prev
    ensures data.review.productId != productId ==> r == prev
  {
    if data.review.productId == productId then [data.review] + prev else prev
  }

  /** The record `{...review, content}`: only the content changes. */
  function WithContent(review: Review, content: string): (r: Review)
    ensures r.content == content
    ensures r.id == review.id && r.productId == review.productId
    ensures r.userName == review.userName && r.createdAt == review.createdAt
  {
    review.(content := content)
  }

  /** `handleReviewUpdated`'s updater: every review with the sent id gets the sent content. */
  function Updated(prev: seq<Review>, data: ReviewUpdated): (r: seq<Review>)
    ensures |r| == |prev|
    ensures forall i :: 0 <= i < |r| ==> r[i].id == prev[i].id
  {
    Map(prev, (r: Review) => if r.id == data.reviewId then WithContent(r, data.content) else r)
  }

  /** `handleReviewDeleted`'s updater: every review with the sent id is dropped. */
  function Deleted(prev: seq<Review>, data: ReviewDeleted): (r: seq<Review>)
    ensures |r| <= |prev|
    ensures forall i :: 0 <= i < |r| ==> r[i].id != data.reviewId
  {
    Filter(prev, (r: Review) => r.id != data.reviewId)
  }

  /**
   The update keeps the length; a matching review gets the sent content and
   keeps its id, product, author and date; any other review is untouched.
   */
  lemma UpdatedPointwise(prev: seq<Review>, data: ReviewUpdated)
    ensures |Updated(prev, data)| == |prev|
    ensures forall i :: 0 <= i < |prev| && prev[i].id == data.reviewId ==>
      var u := Updated(prev, data)[i];
      u.content == data.content && u.id == prev[i].id && u.productId == prev[i].productId
      && u.userName == prev[i].userName && u.createdAt == prev[i].createdAt
    ensures forall i :: 0 <= i < |prev| && prev[i].id != data.reviewId ==> Updated(prev, data)[i] == prev[i]
  {
  }

  /** An update for an id that is not in the list returns the list unchanged. */
  lemma UpdatedAbsent(prev: seq<Review>, data: ReviewUpdated)
    requires forall i :: 0 <= i < |prev| ==> prev[i].id != data.reviewId
    ensures Updated(prev, data) == prev
  {
  }

  /** A review of the list survives the deletion exactly when its id differs from the sent one. */
  lemma DeletedMembers(prev: seq<Review>, data: ReviewDeleted)
    ensures |Deleted(prev, data)| <= |prev|
    ensures forall r :: r in prev ==> (r in Deleted(prev, data) <==> r.id != data.reviewId)
    ensures forall r :: r in Deleted(prev, data) ==> r in prev
  {
  }

  /** The surviving reviews keep their relative order. */
  lemma DeletedKeepsOrder(prev: seq<Review>, data: ReviewDeleted)
    ensures IsSubsequence(Deleted(prev, data), prev)
  {
    FilterIsSubsequence(prev, (r: Review) => r.id != data.reviewId);
  }

  /** Deleting the same id twice is deleting it once. */
  lemma DeletedIdempotent(prev: seq<Review>, data: ReviewDeleted)
    ensures Deleted(Deleted(prev, data), data) == Deleted(prev, data)
  {
    FilterIdempotent(prev, (r: Review) => r.id != data.reviewId);
  }
}
