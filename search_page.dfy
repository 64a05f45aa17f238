/** The Search page: it fetches every artisan once, keeps the list the URL query
    selects, and re-filters when the search bar submits a new query. */
module SearchPage {
  import opened Domain
  import opened Text
  import opened Filter
  import opened QueryParams

  const LoadError := "Failed to load artisans. Please try again later."

  /** What the page renders. */
  datatype View =
    | Spinner
    | ErrorView(message: string)
    | Listing(countLabel: string, summary: string, cards: seq<Artisan>)

  /** "N artisan(s) found". */
  function CountLabel(n: nat): string
  {
    NatToString(n) + " artisan" + (if n != 1 then "s" else "") + " found"
  }

  /** The plural "s" appears exactly when the count is not one. */
  lemma CountLabelPlural(n: nat)
    ensures CountLabel(n) == NatToString(n) + (if n == 1 then " artisan found" else " artisans found")
  {
  }

  /** " for X in Y": the non-empty values of skill and location joined by " in ",
      or nothing when both are empty. */
  function Summary(skill: string, location: string): string
  {
    if skill == "" && location == "" then ""
    else " for " + JoinIn(NonEmpty([skill, location]))
  }

  function JoinIn(parts: seq<string>): string
  {
    if parts == [] then ""
    else if |parts| == 1 then parts[0]
    else parts[0] + " in " + JoinIn(parts[1..])
  }

  lemma SummaryCases(skill: string, location: string)
    ensures skill != "" && location != "" ==> Summary(skill, location) == " for " + skill + " in " + location
    ensures skill != "" && location == "" ==> Summary(skill, location) == " for " + skill
    ensures skill == "" && location != "" ==> Summary(skill, location) == " for " + location
    ensures skill == "" && location == "" ==> Summary(skill, location) == ""
  {
    var parts := [skill, location];
    assert parts[1..] == [location];
    assert [location][1..] == [];
    var tail := NonEmpty([location]);
    assert NonEmpty([location][1..]) == [];
    assert tail == if location == "" then [] else [location];
    assert NonEmpty(parts) == if skill == "" then tail else [skill] + tail;
    if skill != "" && location != "" {
      assert [skill, location][1..] == [location];
      assert JoinIn([skill, location]) == skill + " in " + JoinIn([location]);
    }
  }

  /** The render choice: the spinner while loading, then any error, then the list. */
  function ViewOf(loading: bool, error: string, filtered: seq<Artisan>, skill: string, location: string): (v: View)
    ensures v.Spinner? <==> loading
    ensures v.ErrorView? <==> !loading && error != ""
    ensures v.ErrorView? ==> v.message == error
    ensures v.Listing? ==> v.cards == filtered && v.countLabel == CountLabel(|filtered|)
  {
    if loading then Spinner
    else if error != "" then ErrorView(error)
    else Listing(CountLabel(|filtered|), Summary(skill, location), filtered)
  }

  class Page {
    var artisans: seq<Artisan>
    var filtered: seq<Artisan>
    var loading: bool
    var error: string
    var params: seq<Param>

    /** `searchParams.get("skill") || ""`. */
    function InitialSkill(): string
      reads this
    {
      ParamValue(params, "skill")
    }

    function InitialLocation(): string
      reads this
    {
      ParamValue(params, "location")
    }

    /** The effect keyed on the list and the URL query has run: the shown list is the
        fetched list filtered by the query in the URL. */
    ghost predicate Valid()
      reads this
    {
      filtered == FilterArtisans(artisans, InitialSkill(), InitialLocation())
    }

    /** Mounting with the URL's query: nothing fetched yet, loading. */
    constructor (query: seq<Param>)
      ensures Valid()
      ensures artisans == [] && filtered == [] && loading && error == "" && params == query
    {
      artisans, filtered := [], [];
      loading, error := true, "";
      params := query;
    }

    /** `fetchArtisans()` settled with `response`. A new list re-runs the filter effect;
        a failure sets the message and leaves the list; the error is never cleared. */
    method FetchArtisans(response: Outcome<seq<Artisan>>)
      requires Valid()
      modifies this`artisans, this`filtered, this`loading, this`error
      ensures Valid() && !loading && params == old(params)
      ensures artisans == if response.Ok? then response.data else old(artisans)
      ensures error == if response.Ok? then old(error) else LoadError
      ensures response.Fail? ==> filtered == old(filtered)
    {
      loading := true;
      match response {
        case Ok(data) =>
          artisans := data;
          filtered := FilterArtisans(artisans, InitialSkill(), InitialLocation());
        case Fail =>
          error := LoadError;
      }
      loading := false;
    }

    /** `filterArtisans(skill, location)` on the current list. An internal step, not a
        handler: the page reaches it only from the effect after a load (`FetchArtisans`)
        and from `HandleSearch`, each of which restores `Valid()` around it. */
    method FilterWith(skill: string, location: string)
      modifies this`filtered
      ensures filtered == FilterArtisans(artisans, skill, location)
    {
      filtered := FilterArtisans(artisans, skill, location);
    }

    /** `handleSearch(skill, location)`: the URL takes the active values and the list
        is filtered with the raw arguments; the effect that then re-runs on the new
        URL values finds nothing to change. */
    method HandleSearch(skill: string, location: string)
      requires Valid()
      modifies this`params, this`filtered
      ensures Valid()
      ensures params == SearchParams(skill, location)
      ensures filtered == FilterArtisans(artisans, skill, location)
    {
      params := SearchParams(skill, location);
      FilterWith(skill, location);
      ReadBackFiltersAlike(artisans, skill, location);
    }

    /** The "Show All Artisans" button: `handleSearch("", "")`. */
    method ShowAll()
      requires Valid()
      modifies this`params, this`filtered
      ensures Valid() && params == [] && filtered == artisans
    {
      HandleSearch("", "");
    }

    function View(): View
      reads this
    {
      ViewOf(loading, error, filtered, InitialSkill(), InitialLocation())
    }
  }

  /** "Try Again" cannot recover: after a failed load, a successful retry still shows
      the error, because the message is never reset. */
  method RetryAfterFailure(query: seq<Param>, list: seq<Artisan>) returns (v: View)
    ensures v == ErrorView(LoadError)
  {
    var page := new Page(query);
    page.FetchArtisans(Fail);
    page.FetchArtisans(Ok(list));
    v := page.View();
  }

  /** A first successful load lists exactly what the URL query selects. */
  method FirstLoad(query: seq<Param>, list: seq<Artisan>) returns (v: View)
    ensures v.Listing?
    ensures v.cards == FilterArtisans(list, ParamValue(query, "skill"), ParamValue(query, "location"))
  {
    var page := new Page(query);
    page.FetchArtisans(Ok(list));
    v := page.View();
  }
}
