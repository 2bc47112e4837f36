/**
 * The five-star widget (components/StarRating.js): for each of the stars 1..5,
 * whether it is drawn filled, whether it reacts to clicks, and its ARIA label.
 */
module StarRating {
  import opened Js

  /** One rendered star. `role` and `ariaLabel` are absent (undefined) unless the widget is interactive. */
  datatype Star = Star(number: int, filled: bool, interactive: bool, role: Option<string>, ariaLabel: Option<string>)

  /** The label of star k: `Rate k star`, with a plural `s` for k > 1. */
  function Label(k: int): (text: string)
    requires 1 <= k <= 5
    ensures k == 1 ==> text == "Rate 1 star"
    ensures k > 1 ==> text == "Rate " + NatToString(k) + " stars"
  {
    "Rate " + NatToString(k) + " star" + (if k > 1 then "s" else "")
  }

  function MakeStar(k: int, rating: int, interactive: bool): Star
    requires 1 <= k <= 5
  {
    Star(k, k <= rating, interactive,
         if interactive then Some("button") else None,
         if interactive then Some(Label(k)) else None)
  }

  /** `[1, 2, 3, 4, 5].map(...)` with the default rating 0 and default `interactive = false` supplied by the caller. */
  function Stars(rating: int, interactive: bool): (stars: seq<Star>)
    ensures |stars| == 5
    ensures forall i :: 0 <= i < 5 ==> stars[i].number == i + 1
    ensures forall i :: 0 <= i < 5 ==> (stars[i].filled <==> i + 1 <= rating)
    ensures forall i :: 0 <= i < 5 ==> stars[i].interactive == interactive
    ensures forall i :: 0 <= i < 5 ==>
      (stars[i].role, stars[i].ariaLabel) == if interactive then (Some("button"), Some(Label(i + 1))) else (None, None)
  {
    seq(5, i requires 0 <= i < 5 => MakeStar(i + 1, rating, interactive))
  }

  /** The default rating of the widget. */
  const DefaultRating: int := 0

  /** `onClick`: `interactive && onRate(star)`; the value passed to `onRate`, if it is called. */
  function Click(star: Star): (rated: Option<int>)
    ensures rated.Some? <==> star.interactive
    ensures rated.Some? ==> rated.value == star.number
  {
    if star.interactive then Some(star.number) else None
  }

  function CountFilled(stars: seq<Star>): nat {
    if stars == [] then 0
    else CountFilled(stars[..|stars| - 1]) + (if stars[|stars| - 1].filled then 1 else 0)
  }

  function Clamp(rating: int, hi: int): int {
    if rating < 0 then 0 else if rating > hi then hi else rating
  }

  lemma {:induction false} CountFilledPrefix(rating: int, interactive: bool, n: nat)
    requires n <= 5
    ensures CountFilled(Stars(rating, interactive)[..n]) == Clamp(rating, n)
  {
    if n > 0 {
      var stars := Stars(rating, interactive);
      CountFilledPrefix(rating, interactive, n - 1);
      assert stars[..n][..n - 1] == stars[..n - 1];
    }
  }

  /** For an integer rating r, exactly max(0, min(r, 5)) stars are filled. */
  lemma FilledCount(rating: int, interactive: bool)
    ensures CountFilled(Stars(rating, interactive)) == Clamp(rating, 5)
  {
    CountFilledPrefix(rating, interactive, 5);
    assert Stars(rating, interactive)[..5] == Stars(rating, interactive);
  }

  /** The default rating fills no star. */
  lemma DefaultFillsNone(interactive: bool)
    ensures CountFilled(Stars(DefaultRating, interactive)) == 0
    ensures forall i :: 0 <= i < 5 ==> !Stars(DefaultRating, interactive)[i].filled
  {
    FilledCount(DefaultRating, interactive);
  }

  /** Clicking star k of an interactive widget rates k; on a read-only widget it does nothing. */
  lemma ClickRates(rating: int, interactive: bool, k: int)
    requires 1 <= k <= 5
    ensures Click(Stars(rating, interactive)[k - 1]) == if interactive then Some(k) else None
  {
  }
}
