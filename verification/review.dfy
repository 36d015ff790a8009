/** ReviewModal.jsx: a star rating (1 to 5) and a review text, submitted for
    one recipe. The review date is kept as the text of the date field: an
    empty field makes the ISO conversion throw, any other value of a date
    input converts; the converted timestamp itself is not modelled. */
module Review {
  import opened Js

  /** How the backend answered a POST: accepted, refused with the response
      text ("" when there is none), or no response at all. */
  datatype PostAnswer = Accepted | Refused(body: string) | NetworkFailure

  datatype ReviewPayload = ReviewPayload(recipeId: int, reviewText: string, rating: int, reviewDate: string)

  const Incomplete := "Please provide both a review and a rating"
  const SubmitFailed := "Failed to submit review"
  const NetworkMessage := "Network error. Please try again."

  /** How `handleSubmit` ends before the request: stopped by its guard,
      stopped by the date conversion throwing inside the `try`, or posting a
      payload. */
  datatype Submission = Unready | BadDate | Post(payload: ReviewPayload)

  /** The guard and payload of `handleSubmit`: nothing is sent when the
      trimmed text is empty or no star is chosen; past the guard, an empty
      date field (the only value of a date input that `new Date` cannot
      convert) throws before the request; otherwise the payload carries the
      recipe id, the trimmed (hence non-blank) text, the rating and the
      date. */
  function ReviewRequest(recipeId: int, text: string, rating: int, date: string): (r: Submission)
    ensures r.Unready? <==> AllSpace(text) || rating == 0
    ensures r.BadDate? <==> !AllSpace(text) && rating != 0 && date == ""
    ensures r.Post? ==> && r.payload.recipeId == recipeId && r.payload.reviewText == Trim(text)
                        && !IsBlank(r.payload.reviewText) && r.payload.rating == rating && rating != 0
                        && r.payload.reviewDate == date && date != ""
  {
    TrimIdempotent(text);
    if Trim(text) == "" || rating == 0 then Unready
    else if date == "" then BadDate
    else Post(ReviewPayload(recipeId, Trim(text), rating, date))
  }

  /** The star buttons 1..5: star `i` is drawn filled when `i <= rating`. */
  function Stars(rating: int): (filled: seq<bool>)
    ensures |filled| == 5
    ensures forall i :: 0 <= i < 5 ==> (filled[i] <==> i + 1 <= rating)
  {
    seq(5, i => i + 1 <= rating)
  }

  function CountTrue(bs: seq<bool>): nat {
    if |bs| == 0 then 0 else (if bs[0] then 1 else 0) + CountTrue(bs[1..])
  }

  /** A list whose first `m` flags are set and the rest clear has `m` set. */
  lemma {:induction false} CountLeadingTrue(bs: seq<bool>, m: nat)
    requires m <= |bs|
    requires forall i :: 0 <= i < |bs| ==> (bs[i] <==> i < m)
    ensures CountTrue(bs) == m
  {
    if |bs| > 0 {
      CountLeadingTrue(bs[1..], if m > 0 then m - 1 else 0);
    }
  }

  /** For a rating from 0 to 5 exactly `rating` stars are filled, and they
      are the first ones. */
  lemma FilledStars(rating: int)
    requires 0 <= rating <= 5
    ensures CountTrue(Stars(rating)) == rating
    ensures forall i, j :: 0 <= i < j < 5 && Stars(rating)[j] ==> Stars(rating)[i]
  {
    CountLeadingTrue(Stars(rating), rating);
  }

  /** The caption under the stars, shown when a rating is chosen:
      "<n> star out of 5" for one star, "<n> stars out of 5" otherwise. */
  function RatingCaption(rating: int): (caption: Option<string>)
    requires 0 <= rating <= 5
    ensures caption.None? <==> rating == 0
    ensures rating == 1 ==> caption == Some("1 star out of 5")
    ensures rating == 2 ==> caption == Some("2 stars out of 5")
    ensures rating == 3 ==> caption == Some("3 stars out of 5")
    ensures rating == 4 ==> caption == Some("4 stars out of 5")
    ensures rating == 5 ==> caption == Some("5 stars out of 5")
  {
    var digit := "012345"[rating];
    assert ['1'] + " star" + "" + " out of 5" == "1 star out of 5";
    assert ['2'] + " star" + "s" + " out of 5" == "2 stars out of 5";
    assert ['3'] + " star" + "s" + " out of 5" == "3 stars out of 5";
    assert ['4'] + " star" + "s" + " out of 5" == "4 stars out of 5";
    assert ['5'] + " star" + "s" + " out of 5" == "5 stars out of 5";
    if rating > 0 then
      Some([digit] + " star" + (if rating != 1 then "s" else "") + " out of 5")
    else None
  }

  class ReviewModal {
    const recipeId: int
    var reviewText: string
    var rating: int
    var reviewDate: string
    var isSubmitting: bool
    var error: string

    /** Only the five star buttons and the reset change the rating. */
    ghost predicate Valid()
      reads this
    {
      0 <= rating <= 5
    }

    /** The star row and the caption under it: exactly `rating` stars are
        filled, and the caption shows exactly when one is. */
    function RatingView(): (view: (seq<bool>, Option<string>))
      requires Valid()
      reads this
      ensures |view.0| == 5 && CountTrue(view.0) == rating
      ensures view.1.None? <==> CountTrue(view.0) == 0
    {
      FilledStars(rating);
      (Stars(rating), RatingCaption(rating))
    }

    /** `today` is the date field's initial text. */
    constructor (recipeId: int, today: string)
      ensures Valid()
      ensures this.recipeId == recipeId && reviewText == "" && rating == 0
      ensures reviewDate == today && !isSubmitting && error == ""
    {
      this.recipeId := recipeId;
      reviewText, rating, reviewDate := "", 0, today;
      isSubmitting, error := false, "";
    }

    method SetReviewText(text: string)
      requires Valid()
      modifies this
      ensures Valid() && reviewText == text
      ensures rating == old(rating) && reviewDate == old(reviewDate)
      ensures isSubmitting == old(isSubmitting) && error == old(error)
    {
      reviewText := text;
    }

    /** `handleStarClick(star)` for one of the five star buttons. */
    method HandleStarClick(star: int)
      requires Valid() && 1 <= star <= 5
      modifies this
      ensures Valid() && rating == star
      ensures reviewText == old(reviewText) && reviewDate == old(reviewDate)
      ensures isSubmitting == old(isSubmitting) && error == old(error)
    {
      rating := star;
    }

    /** `handleSubmit`: `sent` is the payload posted, if any; `notified`
        says whether `onReviewSubmitted` and `onClose` were called. `today`
        is the date the field is reset to after a success. */
    method HandleSubmit(answer: PostAnswer, today: string) returns (sent: Option<ReviewPayload>, notified: bool)
      requires Valid()
      modifies this
      ensures Valid()
      ensures var r := ReviewRequest(recipeId, old(reviewText), old(rating), old(reviewDate));
              sent == (if r.Post? then Some(r.payload) else None)
      ensures notified <==> sent.Some? && answer.Accepted?
      ensures AllSpace(old(reviewText)) || old(rating) == 0 ==>
                && error == Incomplete && isSubmitting == old(isSubmitting)
                && reviewText == old(reviewText) && rating == old(rating) && reviewDate == old(reviewDate)
      ensures !AllSpace(old(reviewText)) && old(rating) != 0 ==> !isSubmitting
      ensures !AllSpace(old(reviewText)) && old(rating) != 0 && old(reviewDate) == "" ==>
                && error == NetworkMessage
                && reviewText == old(reviewText) && rating == old(rating) && reviewDate == old(reviewDate)
      ensures sent.Some? && answer.Accepted? ==>
                reviewText == "" && rating == 0 && reviewDate == today && error == ""
      ensures sent.Some? && !answer.Accepted? ==>
                && reviewText == old(reviewText) && rating == old(rating) && reviewDate == old(reviewDate)
                && error == (if answer.Refused? && answer.body != "" then answer.body
                             else if answer.Refused? then SubmitFailed else NetworkMessage)
    {
      notified := false;
      if Trim(reviewText) == "" || rating == 0 {
        error := Incomplete;
        sent := None;
        return;
      }
      isSubmitting := true;
      error := "";
      if reviewDate == "" {
        error := NetworkMessage;
        sent := None;
        isSubmitting := false;
        return;
      }
      sent := Some(ReviewPayload(recipeId, Trim(reviewText), rating, reviewDate));
      match answer {
        case Accepted =>
          notified := true;
          reviewText := "";
          rating := 0;
          reviewDate := today;
        case Refused(body) =>
          error := OrElse(body, SubmitFailed);
        case NetworkFailure =>
          error := NetworkMessage;
      }
      isSubmitting := false;
    }

    /** The submit button is disabled while submitting, while the text is
        blank or while no star is chosen; when it is enabled the guard of
        `handleSubmit` lets the review through. */
    function SubmitDisabled(): (disabled: bool)
      reads this
      ensures disabled <==> isSubmitting || ReviewRequest(recipeId, reviewText, rating, reviewDate).Unready?
    {
      isSubmitting || Trim(reviewText) == "" || rating == 0
    }
  }
}
