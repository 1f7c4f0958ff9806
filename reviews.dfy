/** The review dialog: a five-star rating picked by click (with a hover
    preview), an optional comment, and a submit that refuses a missing rating. */
module Reviews {
  import opened Common

  /** What `onReviewSubmit(salonId, rating, comment)` receives. */
  datatype ReviewSubmission = ReviewSubmission(salonId: string, rating: int, comment: string)

  /** Star `star` is drawn filled while the mouse is on it or a later star,
      or when the chosen rating reaches it: exactly the stars up to the larger
      of the two. */
  predicate StarFilled(hoverRating: int, rating: int, star: int)
    ensures StarFilled(hoverRating, rating, star) <==> star <= Max(hoverRating, rating)
  {
    hoverRating >= star || rating >= star
  }

  function Max(a: int, b: int): (m: int)
    ensures m >= a && m >= b && (m == a || m == b)
  {
    if a >= b then a else b
  }

  /** The filled stars form a prefix: a filled star has every earlier star
      filled, so an unfilled one has every later star unfilled. */
  lemma FilledStarsFormPrefix(hoverRating: int, rating: int, star: int, earlier: int)
    requires earlier <= star
    ensures StarFilled(hoverRating, rating, star) ==> StarFilled(hoverRating, rating, earlier)
  {
  }

  /** What submitting the form yields: nothing without a rating, otherwise
      exactly the salon, the rating and the comment on screen. */
  function Submission(salonId: string, rating: int, comment: string): (r: Option<ReviewSubmission>)
    ensures r.None? <==> rating == 0
    ensures r.Some? ==> r.value.salonId == salonId && r.value.rating == rating && r.value.comment == comment
  {
    if rating == 0 then None else Some(ReviewSubmission(salonId, rating, comment))
  }

  /** The stars a user can click or point at. */
  predicate IsStar(k: int) { 1 <= k <= 5 }

  class ReviewDialog {
    const salonId: string
    var rating: int
    var hoverRating: int
    var comment: string

    /** The rating and its preview stay within 0..5: they start at 0 and are
        only ever set to a star's number or back to 0. */
    ghost predicate Valid()
      reads this
    {
      0 <= rating <= 5 && 0 <= hoverRating <= 5
    }

    /** An empty form: no rating, no preview, no comment. */
    ghost predicate IsReset()
      reads this
    {
      rating == 0 && hoverRating == 0 && comment == ""
    }

    constructor (salonId: string)
      ensures this.salonId == salonId && IsReset() && Valid()
    {
      this.salonId := salonId;
      rating := 0;
      hoverRating := 0;
      comment := "";
    }

    /** Clicking star `star`. */
    method ClickStar(star: int)
      requires Valid() && IsStar(star)
      modifies this`rating
      ensures Valid() && rating == star
    {
      rating := star;
    }

    /** The mouse entering star `star`. */
    method HoverStar(star: int)
      requires Valid() && IsStar(star)
      modifies this`hoverRating
      ensures Valid() && hoverRating == star
    {
      hoverRating := star;
    }

    /** The mouse leaving the row of stars drops the preview. */
    method LeaveStars()
      requires Valid()
      modifies this`hoverRating
      ensures Valid() && hoverRating == 0
    {
      hoverRating := 0;
    }

    /** Typing in the comment box. */
    method EditComment(text: string)
      requires Valid()
      modifies this`comment
      ensures Valid() && comment == text
    {
      comment := text;
    }

    /** `resetState`. */
    method ResetState()
      modifies this`rating, this`hoverRating, this`comment
      ensures IsReset() && Valid()
    {
      rating := 0;
      hoverRating := 0;
      comment := "";
    }

    /** `handleSubmit`: without a rating nothing is submitted and the form is
        kept; otherwise exactly the current salon, rating and comment are
        submitted and the form is reset. */
    method HandleSubmit() returns (submitted: Option<ReviewSubmission>)
      requires Valid()
      modifies this`rating, this`hoverRating, this`comment
      ensures Valid()
      ensures submitted == Submission(salonId, old(rating), old(comment))
      ensures old(rating) == 0 ==>
                rating == old(rating) && hoverRating == old(hoverRating) && comment == old(comment)
      ensures old(rating) != 0 ==> IsReset()
      ensures submitted.Some? ==> IsStar(submitted.value.rating)
    {
      if rating == 0 {
        return None;
      }
      submitted := Some(ReviewSubmission(salonId, rating, comment));
      ResetState();
    }

    /** `handleClose`: closing resets the form; either way the new open state
        is passed on to the owner, which is what this method returns. */
    method HandleClose(isOpen: bool) returns (notifiedOpen: bool)
      requires Valid()
      modifies this`rating, this`hoverRating, this`comment
      ensures Valid() && notifiedOpen == isOpen
      ensures !isOpen ==> IsReset()
      ensures isOpen ==> rating == old(rating) && hoverRating == old(hoverRating) && comment == old(comment)
    {
      if !isOpen {
        ResetState();
      }
      notifiedOpen := isOpen;
    }
  }
}
