/** ReviewEmailModal.jsx: sends an existing review to an email address, with
    an optional reviewer name. */
module ReviewEmail {
  import opened Js
  import opened Review

  /** The review prop: its text and its rating. */
  datatype ReviewProp = ReviewProp(reviewText: string, rating: int)

  datatype ReviewEmailPayload = ReviewEmailPayload(
    email: string, reviewContent: string, recipeTitle: string, reviewerName: string, rating: int)

  const MissingAddress := "Please enter an email address"
  const SendFailed := "Failed to send review"
  const SentMessage := "Review sent successfully!"
  const Anonymous := "Anonymous"

  /** The `emailData` object: the trimmed address, the review's text and
      rating, the title, and the trimmed reviewer name or 'Anonymous' when
      that is blank, so the name sent is never blank. */
  function ReviewEmailFor(email: string, reviewerName: string, review: ReviewProp, recipeTitle: string): (p: ReviewEmailPayload)
    ensures p.email == Trim(email) && p.recipeTitle == recipeTitle
    ensures p.reviewContent == review.reviewText && p.rating == review.rating
    ensures AllSpace(reviewerName) ==> p.reviewerName == Anonymous
    ensures !AllSpace(reviewerName) ==> p.reviewerName == Trim(reviewerName)
    ensures !IsBlank(p.reviewerName)
  {
    TrimIdempotent(reviewerName);
    assert !IsSpace(Anonymous[0]);
    ReviewEmailPayload(Trim(email), review.reviewText, recipeTitle,
                       OrElse(Trim(reviewerName), Anonymous), review.rating)
  }

  class ReviewEmailModal {
    const isOpen: bool
    const review: Option<ReviewProp>
    const recipeTitle: string
    var email: string
    var reviewerName: string
    var isSubmitting: bool
    var error: string
    var success: string

    constructor (isOpen: bool, review: Option<ReviewProp>, recipeTitle: string)
      ensures this.isOpen == isOpen && this.review == review && this.recipeTitle == recipeTitle
      ensures email == "" && reviewerName == "" && !isSubmitting && error == "" && success == ""
    {
      this.isOpen, this.review, this.recipeTitle := isOpen, review, recipeTitle;
      email, reviewerName := "", "";
      isSubmitting, error, success := false, "", "";
    }

    method SetFields(email: string, reviewerName: string)
      modifies this
      ensures this.email == email && this.reviewerName == reviewerName
      ensures isSubmitting == old(isSubmitting) && error == old(error) && success == old(success)
    {
      this.email, this.reviewerName := email, reviewerName;
    }

    /** `handleSubmit`: `sent` is the payload posted, if any. A blank
        address is refused before anything is sent (no format check here).
        Without a review prop, reading it throws inside the `try` and is
        reported like a network error; a rendered dialog always has one, so
        from the screen that path is never taken. */
    method HandleSubmit(answer: PostAnswer) returns (sent: Option<ReviewEmailPayload>)
      modifies this
      ensures email == old(email) && reviewerName == old(reviewerName)
      ensures Rendered() && !AllSpace(email) ==> sent.Some?
      ensures AllSpace(email) ==>
                && sent == None && error == MissingAddress
                && success == old(success) && isSubmitting == old(isSubmitting)
      ensures !AllSpace(email) ==> !isSubmitting
      ensures !AllSpace(email) && review.None? ==>
                sent == None && error == NetworkMessage && success == ""
      ensures !AllSpace(email) && review.Some? ==>
                && sent == Some(ReviewEmailFor(email, reviewerName, review.value, recipeTitle))
                && (answer.Accepted? ==> success == SentMessage && error == "")
                && (answer.Refused? ==> success == "" && error == (if answer.body != "" then answer.body else SendFailed))
                && (answer.NetworkFailure? ==> success == "" && error == NetworkMessage)
    {
      if Trim(email) == "" {
        error := MissingAddress;
        return None;
      }
      isSubmitting := true;
      error := "";
      success := "";
      if review.None? {
        error := NetworkMessage;
        sent := None;
      } else {
        var payload := ReviewEmailPayload(Trim(email), review.value.reviewText, recipeTitle,
                                          OrElse(Trim(reviewerName), Anonymous), review.value.rating);
        sent := Some(payload);
        match answer {
          case Accepted =>
            success := SentMessage;
          case Refused(body) =>
            error := OrElse(body, SendFailed);
          case NetworkFailure =>
            error := NetworkMessage;
        }
      }
      isSubmitting := false;
    }

    /** The callback scheduled after a success: it calls `onClose`
        (`closed`), then empties the address, the name and the success
        text. */
    method AfterSuccess() returns (closed: bool)
      modifies this
      ensures closed
      ensures email == "" && reviewerName == "" && success == ""
      ensures isSubmitting == old(isSubmitting) && error == old(error)
    {
      closed := true;
      email := "";
      reviewerName := "";
      success := "";
    }

    /** The modal renders only when open and given a review. */
    predicate Rendered()
      reads this
    {
      isOpen && review.Some?
    }

    /** The send button is disabled while sending or while the address is
        blank; when enabled, the blank-address guard lets the send through. */
    function SubmitDisabled(): (disabled: bool)
      reads this
      ensures disabled <==> isSubmitting || AllSpace(email)
    {
      isSubmitting || Trim(email) == ""
    }
  }
}
