/**
 * The home page (app/page.js): the listing aggregation applied to the rows of
 * `services` fetched with their provider profile and testimonial ratings, the
 * search-and-category filter over the aggregated list, and the page state
 * (`services`, `loading`, the query and the selected category).
 */
module Home {
  import opened Js
  import Seqs

  /** The provider's profile joined onto a service row: `profiles (full_name, photo_url)`. */
  datatype ProviderProfile = ProviderProfile(full_name: Option<string>, photo_url: Option<string>)

  /** The three view fields the aggregation adds to a row. */
  datatype Derived = Derived(provider_name: string, provider_photo_url: Option<string>, avg_rating: real)

  /**
   * A row of `services` with its joins: `profiles` (possibly missing) and the
   * `rating` column of each joined testimonial (possibly missing). `derived` is
   * None on a row as the backend returns it and holds the view fields once the
   * row has been aggregated.
   */
  datatype Service = Service(
    id: string,
    title: string,
    description: string,
    category: string,
    hourly_rate: real,
    availability: string,
    provider_id: string,
    created_at: string,
    profiles: Option<ProviderProfile>,
    testimonials: Option<seq<int>>,
    derived: Option<Derived>)

  /** The `{ data, error }` answer of a backend query. */
  datatype Response<T> = Response(data: Option<T>, error: Option<string>)

  /** The category sentinel that means "no narrowing". */
  const All: string := "All"

  /** The category selector's choices, sentinel first (components/SearchFilter.js). */
  const Categories: seq<string> := [All, "Tutoring", "Moving Help", "Cleaning", "Tech Support",
    "Photography", "Pet Care", "Rides", "Food & Cooking", "Fitness", "Other"]

  // ----- aggregation -----

  function Sum(ratings: seq<int>): int {
    if ratings == [] then 0 else ratings[0] + Sum(ratings[1..])
  }

  /** `s.profiles?.full_name` */
  function ProfileName(p: Option<ProviderProfile>): Option<string> {
    if p.Some? then p.value.full_name else None
  }

  /** `s.profiles?.photo_url` */
  function ProfilePhoto(p: Option<ProviderProfile>): Option<string> {
    if p.Some? then p.value.photo_url else None
  }

  /** The provider name shown on a listing: the profile's name, or 'Anonymous'. */
  function ProviderName(p: Option<ProviderProfile>): (name: string)
    ensures name != ""
    ensures Truthy(ProfileName(p)) ==> name == ProfileName(p).value
    ensures !Truthy(ProfileName(p)) ==> name == "Anonymous"
  {
    Or(ProfileName(p), "Anonymous")
  }

  /** The provider photo shown on a listing: the profile's photo URL, or null. */
  function ProviderPhoto(p: Option<ProviderProfile>): (url: Option<string>)
    ensures url.Some? ==> url.value != "" && url == ProfilePhoto(p)
    ensures Truthy(ProfilePhoto(p)) ==> url == ProfilePhoto(p)
  {
    if Truthy(ProfilePhoto(p)) then ProfilePhoto(p) else None
  }

  /** The mean of the nested ratings, 0 when they are missing or empty. */
  function AverageRating(testimonials: Option<seq<int>>): (avg: real)
    ensures testimonials.None? || testimonials.value == [] ==> avg == 0.0
    ensures testimonials.Some? && testimonials.value != [] ==>
      avg * (|testimonials.value| as real) == Sum(testimonials.value) as real
  {
    if testimonials.Some? && |testimonials.value| > 0
    then Sum(testimonials.value) as real / |testimonials.value| as real
    else 0.0
  }

  /** One row of the `data.map` in `fetchServices`: the row with its three view fields set. */
  function Format(s: Service): (r: Service)
    ensures r.derived.Some?
    ensures r.(derived := s.derived) == s
  {
    s.(derived := Some(Derived(ProviderName(s.profiles), ProviderPhoto(s.profiles), AverageRating(s.testimonials))))
  }

  /** `data.map(...)` in `fetchServices`. */
  function Aggregate(rows: seq<Service>): (r: seq<Service>)
    ensures |r| == |rows|
    ensures forall i :: 0 <= i < |rows| ==> r[i] == Format(rows[i])
  {
    seq(|rows|, i requires 0 <= i < |rows| => Format(rows[i]))
  }

  /** Aggregation keeps length and order and copies every field of each row, adding only the view fields. */
  lemma AggregateKeepsRows(rows: seq<Service>)
    ensures |Aggregate(rows)| == |rows|
    ensures forall i :: 0 <= i < |rows| ==>
      Aggregate(rows)[i].(derived := rows[i].derived) == rows[i]
    ensures forall i :: 0 <= i < |rows| ==>
      Aggregate(rows)[i].derived == Some(Derived(ProviderName(rows[i].profiles),
                                                 ProviderPhoto(rows[i].profiles),
                                                 AverageRating(rows[i].testimonials)))
  {
  }

  /** Re-applying the aggregation to aggregated rows changes nothing. */
  lemma AggregateIdempotent(rows: seq<Service>)
    ensures Aggregate(Aggregate(rows)) == Aggregate(rows)
  {
    var once := Aggregate(rows);
    assert forall i :: 0 <= i < |rows| ==> Format(once[i]) == once[i];
  }

  lemma {:induction false} SumBounds(ratings: seq<int>, lo: int, hi: int)
    requires forall k :: 0 <= k < |ratings| ==> lo <= ratings[k] <= hi
    ensures lo * |ratings| <= Sum(ratings) <= hi * |ratings|
  {
    if ratings != [] {
      SumBounds(ratings[1..], lo, hi);
    }
  }

  lemma QuotientBounds(x: real, n: real, lo: real, hi: real)
    requires n > 0.0 && lo * n <= x <= hi * n
    ensures lo <= x / n <= hi
  {
    assert (x / n) * n == x;
  }

  /** With every rating in 1..5, the average lies in 1..5 (and is 0 only when there are none). */
  lemma AverageRatingRange(testimonials: Option<seq<int>>)
    requires testimonials.Some? ==> forall k :: 0 <= k < |testimonials.value| ==> 1 <= testimonials.value[k] <= 5
    ensures 0.0 <= AverageRating(testimonials) <= 5.0
    ensures testimonials.Some? && testimonials.value != [] ==> 1.0 <= AverageRating(testimonials)
  {
    if testimonials.Some? && testimonials.value != [] {
      var ts := testimonials.value;
      SumBounds(ts, 1, 5);
      QuotientBounds(Sum(ts) as real, |ts| as real, 1.0, 5.0);
    }
  }

  // ----- search and category filter -----

  /** `s.provider_name`: present once the row has been aggregated. */
  function ProviderNameOf(s: Service): Option<string> {
    if s.derived.Some? then Some(s.derived.value.provider_name) else None
  }

  /** The text test of `filteredServices`: the lowered query inside the lowered title, description or provider name. */
  predicate MatchesSearch(s: Service, query: string)
    ensures MatchesSearch(s, query) <==>
      || (exists i: nat :: OccursAt(Lower(s.title), Lower(query), i))
      || (exists i: nat :: OccursAt(Lower(s.description), Lower(query), i))
      || (exists i: nat :: OccursAt(Lower(Or(ProviderNameOf(s), "")), Lower(query), i))
  {
    var q := Lower(query);
    IncludesIffOccurs(Lower(s.title), q);
    IncludesIffOccurs(Lower(s.description), q);
    IncludesIffOccurs(Lower(Or(ProviderNameOf(s), "")), q);
    Includes(Lower(s.title), q)
    || Includes(Lower(s.description), q)
    || Includes(Lower(Or(ProviderNameOf(s), "")), q)
  }

  /** The category test of `filteredServices`. */
  predicate MatchesCategory(s: Service, category: string)
    ensures category == All ==> MatchesCategory(s, category)
    ensures category != All ==> (MatchesCategory(s, category) <==> s.category == category)
  {
    category == All || s.category == category
  }

  predicate Matches(s: Service, query: string, category: string) {
    MatchesSearch(s, query) && MatchesCategory(s, category)
  }

  /** `filteredServices` */
  function FilteredServices(services: seq<Service>, query: string, category: string): (r: seq<Service>)
    ensures |r| <= |services|
    ensures forall k :: 0 <= k < |r| ==> Matches(r[k], query, category)
  {
    Seqs.Filter(services, s => Matches(s, query, category))
  }

  /** The filter adds nothing and keeps relative order. */
  lemma FilterIsSubsequence(services: seq<Service>, query: string, category: string)
    ensures Seqs.IsSubsequence(FilteredServices(services, query, category), services)
  {
    Seqs.FilterIsSubsequence(services, s => Matches(s, query, category));
  }

  /**
   * A listing is shown exactly when it is in the list, the lowered query occurs in its
   * lowered title, description or provider name (missing name read as ''), and the
   * category is 'All' or its own.
   */
  lemma FilterMembership(services: seq<Service>, query: string, category: string, s: Service)
    ensures s in FilteredServices(services, query, category) <==>
      s in services
      && (   (exists i: nat :: OccursAt(Lower(s.title), Lower(query), i))
          || (exists i: nat :: OccursAt(Lower(s.description), Lower(query), i))
          || (exists i: nat :: OccursAt(Lower(Or(ProviderNameOf(s), "")), Lower(query), i)))
      && (category == All || s.category == category)
  {
    Seqs.FilterMembership(services, s => Matches(s, query, category), s);
  }

  /** Every listing passes the text test of the empty query. */
  lemma EmptyQueryMatchesAll(s: Service)
    ensures MatchesSearch(s, "")
  {
    IncludesEmpty(Lower(s.title));
  }

  /** The empty query with 'All' shows the whole list. */
  lemma EmptyQueryAllShowsEverything(services: seq<Service>)
    ensures FilteredServices(services, "", All) == services
  {
    forall k | 0 <= k < |services| ensures Matches(services[k], "", All) {
      EmptyQueryMatchesAll(services[k]);
    }
    Seqs.FilterAllKept(services, s => Matches(s, "", All));
  }

  /** With 'All', the category selector narrows nothing: only the text test decides. */
  lemma AllCategoryIsTextOnly(services: seq<Service>, query: string)
    ensures FilteredServices(services, query, All) == Seqs.Filter(services, s => MatchesSearch(s, query))
  {
    Seqs.FilterCongruent(services, s => Matches(s, query, All), s => MatchesSearch(s, query));
  }

  /** The search ignores the case of the query. */
  lemma QueryCaseInsensitive(services: seq<Service>, query: string, category: string)
    ensures FilteredServices(services, Lower(query), category) == FilteredServices(services, query, category)
  {
    LowerIdempotent(query);
    Seqs.FilterCongruent(services, s => Matches(s, Lower(query), category), s => Matches(s, query, category));
  }

  /** The filter decides the head of the list, then filters the rest. */
  lemma FilteredCons(s: Service, rest: seq<Service>, query: string, category: string)
    ensures FilteredServices([s] + rest, query, category) ==
      (if Matches(s, query, category) then [s] else []) + FilteredServices(rest, query, category)
  {
    assert ([s] + rest)[1..] == rest;
  }

  /** Two listings, query "calc" and 'All': only the listing whose description mentions calculus is shown. */
  lemma CalcQueryExample(math: Service, dog: Service)
    requires math == Format(Service("1", "Math Tutoring", "Calc help", "Tutoring", 20.0, "", "p1", "",
                                    Some(ProviderProfile(Some("Ann"), None)), None, None))
    requires dog == Format(Service("2", "Dog Walking", "Pet care", "Pet Care", 15.0, "", "p2", "",
                                   Some(ProviderProfile(Some("Bo"), None)), None, None))
    ensures FilteredServices([math, dog], "calc", All) == [math]
  {
    CalcMatchesDescription(math);
    CalcMissesDogWalking(dog);
    FilteredCons(dog, [], "calc", All);
    FilteredCons(math, [dog], "calc", All);
    assert [math] + [dog] == [math, dog];
  }

  lemma CalcMatchesDescription(math: Service)
    requires math.description == "Calc help"
    ensures Matches(math, "calc", All)
  {
    assert Lower("calc") == "calc";
    assert Lower("Calc help")[..4] == "calc";
  }

  lemma CalcMissesDogWalking(dog: Service)
    requires dog.title == "Dog Walking" && dog.description == "Pet care" && ProviderNameOf(dog) == Some("Bo")
    ensures !Matches(dog, "calc", All)
  {
    var q := Lower("calc");
    assert q == "calc";
    var title := Lower(dog.title);
    assert title == "dog walking";
    NotIncludedWithoutChar(title, q, 0);
    var description := Lower(dog.description);
    assert description == "pet care";
    NotIncludedWithoutChar(description, q, 2);
    var name := Lower(Or(ProviderNameOf(dog), ""));
    assert |name| == 2;
    assert !Includes(name, q);
  }

  // ----- page state -----

  /** The state of the home page: the aggregated listings, the spinner flag and the two filter inputs. */
  class HomePage {
    var services: seq<Service>
    var loading: bool
    var searchQuery: string
    var selectedCategory: string

    constructor ()
      ensures services == [] && loading && searchQuery == "" && selectedCategory == All
    {
      services := [];
      loading := true;
      searchQuery := "";
      selectedCategory := All;
    }

    /** `fetchServices`, given the backend's answer to the `services` query. */
    method FetchServices(response: Response<seq<Service>>)
      modifies this
      ensures response.error.None? && response.data.Some? ==> services == Aggregate(response.data.value)
      ensures !(response.error.None? && response.data.Some?) ==> services == old(services)
      ensures !loading
      ensures searchQuery == old(searchQuery) && selectedCategory == old(selectedCategory)
    {
      loading := true;
      if response.error.None? && response.data.Some? {
        services := Aggregate(response.data.value);
      }
      loading := false;
    }

    /** `onSearchChange` */
    method SetSearchQuery(query: string)
      modifies this
      ensures searchQuery == query
      ensures services == old(services) && loading == old(loading) && selectedCategory == old(selectedCategory)
    {
      searchQuery := query;
    }

    /** `onCategoryChange` */
    method SetSelectedCategory(category: string)
      modifies this
      ensures selectedCategory == category
      ensures services == old(services) && loading == old(loading) && searchQuery == old(searchQuery)
    {
      selectedCategory := category;
    }

    /** The listings rendered as cards once loading is over. */
    function Visible(): (shown: seq<Service>)
      reads this
      ensures |shown| <= |services|
      ensures forall k :: 0 <= k < |shown| ==> Matches(shown[k], searchQuery, selectedCategory)
      ensures searchQuery == "" && selectedCategory == All ==> shown == services
    {
      EmptyQueryAllShowsEverything(services);
      FilteredServices(services, searchQuery, selectedCategory)
    }
  }
}
