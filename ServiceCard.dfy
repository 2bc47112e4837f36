/**
 * The listing card (components/ServiceCard.js): the avatar initials derived from
 * the provider name, and the star count `Math.round(avg_rating || 0)`. The same
 * initials rule is used by the profile avatar (components/AvatarUpload.js).
 */
module ServiceCard {
  import opened Js
  import Home
  import StarRating

  /** `words.map(n => n[0]).join('')`: the first character of each word; an empty word gives undefined, which joins as ''. */
  function FirstChars(words: seq<string>): (r: string)
    ensures |r| <= |words|
  {
    if words == [] then ""
    else (if words[0] == "" then "" else [words[0][0]]) + FirstChars(words[1..])
  }

  /**
   * An independent reading of "first letter of each word": the characters of `s` that are not a
   * space and stand at the start or right after a space. `atStart` says whether the previous
   * character was a space (or there was none).
   */
  function WordStarts(s: string, atStart: bool): string {
    if s == [] then ""
    else (if atStart && s[0] != ' ' then [s[0]] else "") + WordStarts(s[1..], s[0] == ' ')
  }

  lemma {:induction false} FirstCharsOfSplit(s: string, atStart: bool)
    ensures WordStarts(s, atStart) ==
      if atStart then FirstChars(Split(s, ' ')) else FirstChars(Split(s, ' ')[1..])
  {
    if s != [] {
      var rest := Split(s[1..], ' ');
      FirstCharsOfSplit(s[1..], s[0] == ' ');
      if s[0] == ' ' {
        assert Split(s, ' ') == [""] + rest;
        assert Split(s, ' ')[1..] == rest;
      } else {
        var parts := Split(s, ' ');
        assert parts == [[s[0]] + rest[0]] + rest[1..];
        assert parts[1..] == rest[1..];
      }
    }
  }

  /** `name ? name.split(' ').map(n => n[0]).join('').toUpperCase() : '?'` */
  function Initials(name: Option<string>): (r: string)
    ensures !Truthy(name) ==> r == "?"
    ensures Truthy(name) ==> r == Upper(WordStarts(name.value, true))
    ensures Truthy(name) ==> |r| <= |Split(name.value, ' ')|
  {
    if Truthy(name) then
      FirstCharsOfSplit(name.value, true);
      Upper(FirstChars(Split(name.value, ' ')))
    else "?"
  }

  /** Initials are upper case, and no longer than the name has space-separated words. */
  lemma InitialsShape(name: string)
    requires name != ""
    ensures forall i :: 0 <= i < |Initials(Some(name))| ==> !IsLowerLetter(Initials(Some(name))[i])
    ensures |Initials(Some(name))| <= |Split(name, ' ')|
  {
    UpperHasNoLowerLetter(WordStarts(name, true));
  }

  /** Repeated, leading and trailing spaces contribute nothing: "  ann   lee " gives "AL". */
  lemma InitialsSkipEmptyWords()
    ensures Initials(Some("  ann   lee ")) == "AL"
  {
    WordStartsExample();
    assert Upper("al") == "AL";
  }

  lemma WordStartsExample()
    ensures WordStarts("  ann   lee ", true) == "al"
  {
    WordStartsLee();
    assert WordStarts("n   lee ", false) == "l";
    assert WordStarts("nn   lee ", false) == "l";
    assert WordStarts("ann   lee ", true) == "al";
    assert WordStarts(" ann   lee ", true) == "al";
  }

  lemma WordStartsLee()
    ensures WordStarts("   lee ", false) == "l"
  {
    assert WordStarts("", true) == "";
    assert WordStarts(" ", false) == "";
    assert WordStarts("e ", false) == "";
    assert WordStarts("ee ", false) == "";
    assert WordStarts("lee ", true) == "l";
    assert WordStarts(" lee ", true) == "l";
    assert WordStarts("  lee ", true) == "l";
  }

  /** `Math.round`: the nearest integer, halves rounding upward. */
  function Round(x: real): (n: int)
    ensures n as real - 0.5 <= x < n as real + 0.5
  {
    (x + 0.5).Floor
  }

  /** `avg_rating || 0`: a missing (or zero) average reads as 0. */
  function AverageOrZero(s: Home.Service): (avg: real)
    ensures s.derived.None? ==> avg == 0.0
    ensures s.derived.Some? ==> avg == s.derived.value.avg_rating
  {
    if s.derived.Some? then s.derived.value.avg_rating else 0.0
  }

  /** The rating handed to the card's star widget. */
  function StarCount(s: Home.Service): (n: int)
    ensures n as real - 0.5 <= AverageOrZero(s) < n as real + 0.5
  {
    Round(AverageOrZero(s))
  }

  /** The stars of a card. */
  function CardStars(s: Home.Service): (stars: seq<StarRating.Star>)
    ensures stars == StarRating.Stars(StarCount(s), false)
    ensures StarRating.CountFilled(stars) == StarRating.Clamp(StarCount(s), 5)
    ensures forall i :: 0 <= i < |stars| ==> !stars[i].interactive
  {
    StarRating.FilledCount(StarCount(s), false);
    StarRating.Stars(StarCount(s), false)
  }

  /** Rounding examples: 0 gives 0, 4.0 gives 4, 3.5 rounds up to 4, 3.49 down to 3. */
  lemma RoundExamples()
    ensures Round(0.0) == 0 && Round(4.0) == 4 && Round(3.5) == 4 && Round(3.49) == 3
  {
  }

  /** An aggregated row whose ratings are all in 1..5 shows between 0 and 5 stars; one without ratings shows 0. */
  lemma StarCountRange(row: Home.Service)
    requires row.testimonials.Some? ==> forall k :: 0 <= k < |row.testimonials.value| ==> 1 <= row.testimonials.value[k] <= 5
    ensures 0 <= StarCount(Home.Format(row)) <= 5
    ensures row.testimonials.None? || row.testimonials.value == [] ==> StarCount(Home.Format(row)) == 0
  {
    Home.AverageRatingRange(row.testimonials);
  }

  /** Ratings 4, 5 and 3 average 4.0 and show four stars. */
  lemma ThreeRatingsShowFour(row: Home.Service)
    requires row.testimonials == Some([4, 5, 3])
    ensures AverageOrZero(Home.Format(row)) == 4.0
    ensures StarCount(Home.Format(row)) == 4
  {
    assert Home.Sum([4, 5, 3]) == 12;
  }
}
