/** The Home page: its search bar's `onSearch` navigates to the Search page with the
    query in the URL. */
module Home {
  import opened Domain
  import opened Filter
  import opened QueryParams
  import opened Text

  /** A client-side navigation target: a path and its query parameters. */
  datatype Route = Route(path: string, query: seq<Param>)

  /** The string handed to `navigate`. */
  function Href(r: Route): string
  {
    r.path + "?" + QueryString(r.query)
  }

  /** `handleSearch(skill, location)`. */
  function HandleSearch(skill: string, location: string): (r: Route)
    ensures r.path == "/search"
    ensures Get(r.query, "skill") == if Active(skill, AllSkills) then Some(skill) else None
    ensures Get(r.query, "location") == if Active(location, AllLocations) then Some(location) else None
  {
    SearchParamsShape(skill, location);
    Route("/search", SearchParams(skill, location))
  }

  /** The target is always "/search?" followed by the parameters. */
  lemma HrefPrefix(skill: string, location: string)
    ensures StartsWith(Href(HandleSearch(skill, location)), "/search?")
  {
    var q := QueryString(SearchParams(skill, location));
    assert Href(HandleSearch(skill, location)) == "/search?" + q;
    assert ("/search?" + q)[..8] == "/search?";
  }

  /** With neither value active the target is exactly "/search?". */
  lemma HrefWithoutQuery(skill: string, location: string)
    requires !Active(skill, AllSkills) && !Active(location, AllLocations)
    ensures Href(HandleSearch(skill, location)) == "/search?"
  {
  }

  /** With both values active the skill comes first and the location second. */
  lemma HrefWithBoth(skill: string, location: string)
    requires Active(skill, AllSkills) && Active(location, AllLocations)
    ensures Href(HandleSearch(skill, location)) == "/search?skill=" + skill + "&location=" + location
  {
    SearchParamsShape(skill, location);
    QueryStringOfPair(Param("skill", skill), Param("location", location));
  }

  /** The sentinel test is exact: a lower-case "all skills" is sent as a filter. */
  lemma SentinelIsCaseSensitive()
    ensures Href(HandleSearch("all skills", "")) == "/search?skill=all skills"
    ensures Href(HandleSearch("All Skills", "All Locations")) == "/search?"
  {
    SearchParamsShape("all skills", "");
    assert QueryString([Param("skill", "all skills")]) == "skill=all skills";
  }
}
