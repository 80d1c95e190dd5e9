/** The post-order rating card: a five-star rating and a comment that can be
    entered until a rating exists, and the guard in front of the submit call. */
module RatingCard {
  import opened Wrappers
  import opened Text

  /** The arguments handed to `onRatingSubmit`. */
  datatype Submission = Submission(orderId: string, rating: nat, comment: string)

  /** What the card shows: a spinner while a submission runs, otherwise the
      star row (true for a filled star), whether the stars and the comment box
      take input, and either the submit button (carrying whether it is
      enabled) or, once submitted, the thank-you line in its place. */
  datatype View =
    | SubmittingSpinner
    | Card(stars: seq<bool>, editable: bool, submitButton: Option<bool>)

  /** Star `starValue` (1 to 5) is drawn filled. */
  predicate StarFilled(starValue: nat, rating: nat)
  {
    starValue <= rating
  }

  /** The row of five stars, star i + 1 at index i. */
  function StarRow(rating: nat): seq<bool>
  {
    seq(5, i requires 0 <= i < 5 => StarFilled(i + 1, rating))
  }

  /** The row is `rating` filled stars followed by empty ones: none filled for
      no rating, all five for a rating of 5 or more. */
  lemma {:induction false} StarRowShape(rating: nat)
    ensures rating <= 5 ==> StarRow(rating) == seq(rating, _ => true) + seq(5 - rating, _ => false)
    ensures rating > 5 ==> StarRow(rating) == seq(5, _ => true)
  {
    if rating <= 5 {
      var row := seq(rating, _ => true) + seq(5 - rating, _ => false);
      forall i | 0 <= i < 5 ensures StarRow(rating)[i] == row[i] {
        if i < rating {
          assert row[i] == seq(rating, _ => true)[i];
        } else {
          assert row[i] == seq(5 - rating, _ => false)[i - rating];
        }
      }
    } else {
      assert forall i :: 0 <= i < 5 ==> StarRow(rating)[i] == seq(5, _ => true)[i];
    }
  }

  /** The submit button's `disabled` rule. */
  predicate SubmitDisabled(rating: nat, comment: string, isSubmitting: bool)
  {
    isSubmitting || (rating == 0 && Trim(comment) == "")
  }

  /** The card's state; `existingRating` 0 and `existingComment` "" stand for
      a missing (falsy) prop. */
  class RatingCardState {
    var rating: nat
    var comment: string
    var hasSubmitted: bool

    /** Mounting: the initial state and the resync effect that runs at once. */
    constructor (existingRating: nat, existingComment: string)
      ensures rating == existingRating && comment == existingComment
      ensures hasSubmitted <==> existingRating != 0 || existingComment != ""
    {
      rating := existingRating;
      comment := existingComment;
      hasSubmitted := existingRating != 0 || existingComment != "";
    }

    /** The resync effect on new `existingRating`/`existingComment` props: the
        fields take the props, and the card counts as submitted exactly when
        either prop is set. */
    method SyncFromProps(existingRating: nat, existingComment: string)
      modifies this
      ensures rating == existingRating && comment == existingComment
      ensures hasSubmitted <==> existingRating != 0 || existingComment != ""
    {
      rating := existingRating;
      comment := existingComment;
      if existingRating != 0 || existingComment != "" {
        hasSubmitted := true;
      } else {
        hasSubmitted := false;
      }
    }

    /** `handleStarClick(value)`: the rating changes only while neither
        submitted nor submitting. */
    method HandleStarClick(value: nat, isSubmitting: bool)
      modifies this
      ensures rating == if !hasSubmitted && !isSubmitting then value else old(rating)
      ensures comment == old(comment) && hasSubmitted == old(hasSubmitted)
    {
      if !hasSubmitted && !isSubmitting {
        rating := value;
      }
    }

    /** The comment box's `onChange`: edits are ignored while submitted or
        submitting. */
    method HandleCommentChange(text: string, isSubmitting: bool)
      modifies this
      ensures comment == if !hasSubmitted && !isSubmitting then text else old(comment)
      ensures rating == old(rating) && hasSubmitted == old(hasSubmitted)
    {
      if !hasSubmitted && !isSubmitting {
        comment := text;
      }
    }

    /** `handleSubmit`: calls `onRatingSubmit` only when something was entered
        (a star, or a comment that is not all whitespace), the card is not
        already submitted and no submission is running; it changes no field,
        `hasSubmitted` included. */
    method HandleSubmit(orderId: string, isSubmitting: bool) returns (call: Option<Submission>)
      ensures call.Some? <==> (rating > 0 || !AllWhitespace(comment)) && !hasSubmitted && !isSubmitting
      ensures call.Some? ==> call.value == Submission(orderId, rating, comment)
    {
      TrimEmptyIff(comment);
      if (rating > 0 || Trim(comment) != "") && !hasSubmitted && !isSubmitting {
        call := Some(Submission(orderId, rating, comment));
      } else {
        call := None;
      }
    }

    /** The card as it renders now. */
    function CurrentView(isSubmitting: bool): View
      reads this
    {
      CardView(rating, comment, hasSubmitted, isSubmitting)
    }
  }

  /** On a card not yet submitted, `handleSubmit` would call the parent exactly
      when the submit button is enabled: the guard and the disabled rule agree. */
  lemma {:induction false} SubmitGuardMatchesButton(rating: nat, comment: string, isSubmitting: bool)
    ensures !SubmitDisabled(rating, comment, isSubmitting) <==>
      (rating > 0 || !AllWhitespace(comment)) && !isSubmitting
  {
    TrimEmptyIff(comment);
  }

  /** The card's render: a spinner while submitting; otherwise the star row,
      the stars and comment box taking input until submitted, and the submit
      button, disabled by its rule, until submitted. */
  function CardView(rating: nat, comment: string, hasSubmitted: bool, isSubmitting: bool): View
  {
    if isSubmitting then SubmittingSpinner
    else Card(StarRow(rating), !hasSubmitted, if !hasSubmitted then Some(!SubmitDisabled(rating, comment, isSubmitting)) else None)
  }

  /** What the card shows agrees with what its handlers do: the stars and the
      comment box look editable exactly when clicks and edits are taken, the
      button is shown exactly while neither submitted nor submitting, and when
      shown it is enabled exactly when `handleSubmit` would call the parent. */
  lemma {:induction false} ViewMatchesHandlers(rating: nat, comment: string, hasSubmitted: bool, isSubmitting: bool)
    ensures CardView(rating, comment, hasSubmitted, isSubmitting).SubmittingSpinner? <==> isSubmitting
    ensures CardView(rating, comment, hasSubmitted, isSubmitting).Card? ==>
      var v := CardView(rating, comment, hasSubmitted, isSubmitting);
      && v.stars == StarRow(rating)
      && (v.editable <==> !hasSubmitted && !isSubmitting)
      && (v.submitButton.Some? <==> !hasSubmitted && !isSubmitting)
      && (v.submitButton == Some(true) <==> (rating > 0 || !AllWhitespace(comment)) && !hasSubmitted && !isSubmitting)
  {
    SubmitGuardMatchesButton(rating, comment, isSubmitting);
  }
}
