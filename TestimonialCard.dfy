/**
 * A testimonial as shown on a profile (components/TestimonialCard.js): the
 * author's initial, the author's displayed name, and the stars of its rating.
 */
module TestimonialCard {
  import opened Js
  import StarRating

  /** The author's profile joined onto a testimonial: `profiles (full_name)`. */
  datatype Author = Author(full_name: Option<string>)

  /** A row of `testimonials` with its author joined. */
  datatype Testimonial = Testimonial(id: string, rating: int, comment: string, profiles: Option<Author>)

  /** `testimonial.profiles?.full_name` */
  function AuthorName(t: Testimonial): Option<string> {
    if t.profiles.Some? then t.profiles.value.full_name else None
  }

  /** The avatar letter: the author's first character upper-cased, or '?' without a name. */
  function Initial(t: Testimonial): (r: string)
    ensures |r| == 1
    ensures !Truthy(AuthorName(t)) ==> r == "?"
    ensures Truthy(AuthorName(t)) ==> r[0] == UpperChar(AuthorName(t).value[0])
  {
    if Truthy(AuthorName(t)) then Upper([AuthorName(t).value[0]]) else "?"
  }

  /** The name shown above the stars: the author's name, or 'Anonymous'; never empty. */
  function DisplayName(t: Testimonial): (name: string)
    ensures name != ""
    ensures Truthy(AuthorName(t)) ==> name == AuthorName(t).value
    ensures !Truthy(AuthorName(t)) ==> name == "Anonymous"
  {
    Or(AuthorName(t), "Anonymous")
  }

  /** The stars shown for a testimonial: its own rating, read-only. */
  function RatingStars(t: Testimonial): (stars: seq<StarRating.Star>)
    ensures stars == StarRating.Stars(t.rating, false)
    ensures StarRating.CountFilled(stars) == StarRating.Clamp(t.rating, 5)
    ensures forall i :: 0 <= i < |stars| ==> !stars[i].interactive
  {
    StarRating.FilledCount(t.rating, false);
    StarRating.Stars(t.rating, false)
  }
}
