/**
 * The testimonial form (components/FeedbackForm.js): its `rating`, `comment`
 * and `loading` slots, the rule that enables the submit button, and the reset
 * after a submission.
 */
module Feedback {
  import StarRating

  /** The object passed to `onSubmit`. */
  datatype Submission = Submission(rating: int, comment: string)

  class FeedbackForm {
    var rating: int
    var comment: string
    var loading: bool

    constructor ()
      ensures rating == 0 && comment == "" && !loading
    {
      rating, comment, loading := 0, "", false;
    }

    /** The submit button is enabled: not while submitting, and not before a star was chosen. */
    predicate CanSubmit()
      reads this
      ensures CanSubmit() ==> !loading && rating != 0
      ensures !loading && rating != 0 ==> CanSubmit()
    {
      !(loading || rating == 0)
    }

    /** The star widget's `onRate`, fired by a click on one of its stars. */
    method ClickStar(star: StarRating.Star)
      modifies this`rating
      ensures star.interactive ==> rating == star.number
      ensures !star.interactive ==> rating == old(rating)
    {
      var rated := StarRating.Click(star);
      if rated.Some? {
        rating := rated.value;
      }
    }

    /** The textarea's `onChange`. */
    method EditComment(text: string)
      modifies this`comment
      ensures comment == text
    {
      comment := text;
    }

    /** The first step of `handleSubmit`: mark the form busy and hand the current values to `onSubmit`. */
    method BeginSubmit() returns (submitted: Submission)
      modifies this`loading
      ensures submitted == Submission(rating, comment) && loading
    {
      loading := true;
      submitted := Submission(rating, comment);
    }

    /** `handleSubmit`: `onSubmit` receives the current rating and comment, then the form is reset. */
    method HandleSubmit() returns (submitted: Submission)
      modifies this
      ensures submitted == Submission(old(rating), old(comment))
      ensures rating == 0 && comment == "" && !loading
    {
      submitted := BeginSubmit();
      rating := 0;
      comment := "";
      loading := false;
    }
  }

  /** A fresh form cannot be submitted; after a click on any star of the interactive widget it can. */
  method RateThenSubmittable(k: int) returns (before: bool, after: bool)
    requires 1 <= k <= 5
    ensures !before && after
  {
    var form := new FeedbackForm();
    before := form.CanSubmit();
    var stars := StarRating.Stars(form.rating, true);
    form.ClickStar(stars[k - 1]);
    after := form.CanSubmit();
  }

  /** After a submission the form is back to its initial state, so it cannot be submitted again until re-rated. */
  method SubmitResets(k: int, text: string) returns (sent: Submission, again: bool)
    requires 1 <= k <= 5
    ensures sent == Submission(k, text) && !again
  {
    var form := new FeedbackForm();
    var stars := StarRating.Stars(form.rating, true);
    form.ClickStar(stars[k - 1]);
    form.EditComment(text);
    sent := form.HandleSubmit();
    again := form.CanSubmit();
  }
}
