/** The reviews panel of the product page: the star widget, the review form and the
    summary counts. */
module Rating {
  import opened Base
  import opened Text
  import opened Entities
  import opened AuthService
  import Stars

  /** A stored review: its author's id, its stars and its comment, which may be missing. */
  datatype Review = Review(userId: string, stars: int, comment: Option<string>)

  /** The answer of the reviews endpoint. */
  datatype ReviewsReply = ReviewsReply(success: bool, reviews: seq<Review>)

  /** The answer of the rating endpoint: its flag, its message and the product's new rating. */
  datatype RatingReply = RatingReply(success: bool, message: string, rating: real)

  /** The body posted with a rating. */
  datatype RatingPayload = RatingPayload(userId: string, stars: int, comment: string)

  /** `reviews.find(review => review.user._id === id)`: the first review by that author. */
  function FindByUser(reviews: seq<Review>, id: string): (r: Option<Review>)
    ensures r.Some? ==> r.value in reviews && r.value.userId == id
    ensures r.None? <==> forall i :: 0 <= i < |reviews| ==> reviews[i].userId != id
    ensures r.Some? ==>
              exists i :: 0 <= i < |reviews| && reviews[i] == r.value && forall j :: 0 <= j < i ==> reviews[j].userId != id
  {
    if reviews == [] then None
    else if reviews[0].userId == id then Some(reviews[0])
    else
      var r := FindByUser(reviews[1..], id);
      if r.Some? then
        var i :| 0 <= i < |reviews[1..]| && reviews[1..][i] == r.value
                 && forall j :: 0 <= j < i ==> reviews[1..][j].userId != id;
        assert reviews[i + 1] == r.value;
        assert forall j :: 0 <= j < i + 1 ==> reviews[j].userId != id by {
          forall j | 0 <= j < i + 1 ensures reviews[j].userId != id {
            if j > 0 { assert reviews[j] == reviews[1..][j - 1]; }
          }
        }
        r
      else
        assert forall i :: 0 <= i < |reviews| ==> reviews[i].userId != id by {
          forall i | 0 <= i < |reviews| ensures reviews[i].userId != id {
            if i > 0 { assert reviews[i] == reviews[1..][i - 1]; }
          }
        }
        r
  }

  const LoginFirst := "Please log in to rate this product"

  /** `error.response?.data?.message || 'Failed to submit rating'`. */
  function SubmitFailure(e: RequestError): (r: string)
    ensures r != ""
    ensures r == "Failed to submit rating" || (e.responseBody.Some? && e.responseBody.value.message == Some(r))
    ensures e.responseBody.None? ==> r == "Failed to submit rating"
    ensures e.responseBody.Some? && e.responseBody.value.message.Some? && e.responseBody.value.message.value != "" ==>
              r == e.responseBody.value.message.value
  {
    if e.responseBody.Some? && e.responseBody.value.message.Some? && e.responseBody.value.message.value != ""
    then e.responseBody.value.message.value
    else "Failed to submit rating"
  }

  class RatingWidget {
    const productId: string
    var userRating: int
    var hoverRating: int
    var comment: string
    var reviews: seq<Review>
    var loading: bool
    var submitting: bool
    var showReviewForm: bool
    var error: Option<string>
    var success: Option<string>

    constructor (productId: string)
      ensures this.productId == productId
      ensures userRating == 0 && hoverRating == 0 && comment == "" && reviews == []
      ensures !loading && !submitting && !showReviewForm && error == None && success == None
    {
      this.productId := productId;
      userRating, hoverRating, comment, reviews := 0, 0, "", [];
      loading, submitting, showReviewForm := false, false, false;
      error, success := None, None;
    }

    /** `fetchReviews` once it has settled: a successful answer replaces the list and, when
        the signed-in user has a review there, preloads its stars and comment. */
    method FetchReviews(user: Option<User>, reply: Result<ReviewsReply, ()>)
      modifies this
      ensures !loading
      ensures reply.Ok? && reply.value.success ==> reviews == reply.value.reviews
      ensures !(reply.Ok? && reply.value.success) ==> reviews == old(reviews)
      ensures reply.Ok? && reply.value.success && user.Some? && FindByUser(reply.value.reviews, user.value.id).Some? ==>
                var mine := FindByUser(reply.value.reviews, user.value.id).value;
                userRating == mine.stars && comment == (if mine.comment.Some? then mine.comment.value else "")
      ensures !(reply.Ok? && reply.value.success && user.Some? && FindByUser(reply.value.reviews, user.value.id).Some?) ==>
                userRating == old(userRating) && comment == old(comment)
      ensures reply.Err? ==> error == Some("Failed to load reviews")
      ensures reply.Ok? ==> error == old(error)
      ensures hoverRating == old(hoverRating) && showReviewForm == old(showReviewForm)
              && submitting == old(submitting) && success == old(success)
    {
      loading := true;
      match reply {
        case Ok(answer) =>
          if answer.success {
            reviews := answer.reviews;
            if user.Some? {
              var mine := FindByUser(answer.reviews, user.value.id);
              if mine.Some? {
                userRating := mine.value.stars;
                comment := if mine.value.comment.Some? then mine.value.comment.value else "";
              }
            }
          }
        case Err(_) =>
          error := Some("Failed to load reviews");
      }
      loading := false;
    }

    /** `handleStarClick`: only a signed-in user can pick stars, which opens the form. */
    method StarClick(user: Option<User>, star: int)
      modifies this`error, this`userRating, this`showReviewForm
      ensures user.None? ==> error == Some(LoginFirst) && userRating == old(userRating)
                             && showReviewForm == old(showReviewForm)
      ensures user.Some? ==> userRating == star && showReviewForm && error == old(error)
    {
      if user.None? {
        error := Some(LoginFirst);
        return;
      }
      userRating := star;
      showReviewForm := true;
    }

    /** `handleStarHover`: only the hover changes. */
    method StarHover(star: int)
      modifies this`hoverRating
      ensures hoverRating == star
    {
      hoverRating := star;
    }

    /** `handleStarLeave`: only the hover changes, back to none. */
    method StarLeave()
      modifies this`hoverRating
      ensures hoverRating == 0
    {
      hoverRating := 0;
    }

    /** `handleSubmitRating`, with the rating call's answer and the refreshed list as inputs.
        The checks run in order (no user, no user id, no stars) and the first that fails sets
        its message and sends nothing. Returns the body posted, if any, and the new product
        rating handed to the page. The success message stays until `SuccessTimeout`. */
    method SubmitRating(user: Option<User>, reply: Result<RatingReply, RequestError>,
                        refreshed: Result<ReviewsReply, ()>)
      returns (sent: Option<RatingPayload>, newRating: Option<real>)
      modifies this
      ensures user.None? ==> error == Some(LoginFirst)
      ensures user.Some? && user.value.id == "" ==> error == Some("User ID not available. Please log in again.")
      ensures user.Some? && user.value.id != "" && old(userRating) == 0 ==> error == Some("Please select a rating")
      ensures sent.Some? <==> user.Some? && user.value.id != "" && old(userRating) != 0
      ensures sent.Some? ==> sent.value == RatingPayload(user.value.id, old(userRating), Trim(old(comment)))
      ensures sent.None? ==> newRating.None? && reviews == old(reviews) && userRating == old(userRating)
                             && showReviewForm == old(showReviewForm) && success == old(success)
      ensures sent.Some? && reply.Ok? && reply.value.success ==>
                success == Some(reply.value.message) && !showReviewForm && newRating == Some(reply.value.rating)
      ensures sent.Some? && reply.Ok? && reply.value.success && refreshed.Ok? && refreshed.value.success ==>
                reviews == refreshed.value.reviews
      ensures sent.Some? && reply.Ok? && reply.value.success && !(refreshed.Ok? && refreshed.value.success) ==>
                reviews == old(reviews)
      ensures sent.Some? && reply.Ok? && reply.value.success ==>
                error == (if refreshed.Err? then Some("Failed to load reviews") else None)
      ensures sent.Some? && reply.Ok? && reply.value.success && refreshed.Ok? && refreshed.value.success
              && FindByUser(refreshed.value.reviews, user.value.id).Some? ==>
                var mine := FindByUser(refreshed.value.reviews, user.value.id).value;
                userRating == mine.stars && comment == (if mine.comment.Some? then mine.comment.value else "")
      ensures !(sent.Some? && reply.Ok? && reply.value.success && refreshed.Ok? && refreshed.value.success
                && FindByUser(refreshed.value.reviews, user.value.id).Some?) ==>
                userRating == old(userRating) && comment == old(comment)
      ensures sent.Some? && reply.Ok? && !reply.value.success ==>
                error == None && success == None && newRating.None? && reviews == old(reviews)
                && showReviewForm == old(showReviewForm)
      ensures sent.Some? && reply.Err? ==>
                error == Some(SubmitFailure(reply.error)) && success == None && newRating.None?
                && reviews == old(reviews) && showReviewForm == old(showReviewForm)
      ensures sent.None? ==> submitting == old(submitting)
      ensures sent.Some? && reply.Ok? && reply.value.success ==> !loading
      ensures !(sent.Some? && reply.Ok? && reply.value.success) ==> loading == old(loading)
      ensures sent.Some? ==> !submitting
      ensures hoverRating == old(hoverRating)
    {
      sent, newRating := None, None;
      if user.None? {
        error := Some(LoginFirst);
        return;
      }
      if user.value.id == "" {
        error := Some("User ID not available. Please log in again.");
        return;
      }
      if userRating == 0 {
        error := Some("Please select a rating");
        return;
      }
      submitting := true;
      error, success := None, None;
      sent := Some(RatingPayload(user.value.id, userRating, Trim(comment)));
      match reply {
        case Ok(answer) =>
          if answer.success {
            success := Some(answer.message);
            showReviewForm := false;
            newRating := Some(answer.rating);
            FetchReviews(user, refreshed);
          }
        case Err(e) =>
          error := Some(SubmitFailure(e));
      }
      submitting := false;
    }

    /** The timer set after a successful submission: three seconds later the success
        message is cleared, and nothing else changes. */
    method SuccessTimeout()
      modifies this`success
      ensures success == None
    {
      success := None;
    }

    /** A star of the interactive row is lit by the hover or by the chosen rating. */
    predicate InteractiveFilled(star: int)
      reads this
    {
      hoverRating >= star || userRating >= star
    }
  }

  /** A star of the read-only row (1 to 5) is lit when the rating reaches it. */
  predicate DisplayFilled(rating: real, star: int)
  {
    rating >= star as real
  }

  /** The read-only row lights exactly the stars up to the rating rounded down. */
  lemma DisplayFilledIsFloor(rating: real, star: int)
    ensures DisplayFilled(rating, star) <==> star <= rating.Floor
  {
  }

  /** The interactive row lights the stars up to the larger of hover and choice. */
  lemma InteractiveIsMax(w: RatingWidget, star: int)
    ensures w.InteractiveFilled(star) <==> (if w.hoverRating >= w.userRating then w.hoverRating else w.userRating) >= star
  {
  }

  /** The product card rounds half up, while this row rounds down: a 3.5 rating lights four
      stars on the card and three here. */
  lemma CardAndPanelDiffer()
    ensures Stars.Filled(3.5, 3) && !DisplayFilled(3.5, 4)
  {
    assert (3.5).Floor == 3;
  }

  predicate High(r: Review) { r.stars >= 4 }
  predicate Middle(r: Review) { r.stars >= 3 && r.stars < 4 }
  predicate Low(r: Review) { r.stars < 3 }

  /** The counts of the three buckets make up the whole list: every review is counted
      once. */
  lemma {:induction false} BucketsAddUp(reviews: seq<Review>)
    ensures |Filter(reviews, High)| + |Filter(reviews, Middle)| + |Filter(reviews, Low)| == |reviews|
  {
    if reviews != [] {
      BucketsAddUp(reviews[1..]);
    }
  }
}
