/** The profile page at `/artisan/:id`: one fetch per id, a spinner, an error view,
    or the profile with a generated "About" text when the record has none. */
module ArtisanProfile {
  import opened Domain
  import opened Text
  import opened Initials

  const LoadError := "Failed to load artisan profile. Please try again later."

  datatype View = Spinner | ErrorView(message: string) | ProfileView(artisan: Artisan)

  /** The render choice, in order: loading, then an error or a missing record, then
      the profile. */
  function ViewOf(loading: bool, error: string, artisan: Option<Artisan>): (v: View)
    ensures v.Spinner? <==> loading
    ensures v.ErrorView? <==> !loading && (error != "" || artisan.None?)
    ensures v.ErrorView? ==> v.message == error
    ensures v.ProfileView? ==> artisan == Some(v.artisan)
  {
    if loading then Spinner
    else if error != "" || artisan.None? then ErrorView(error)
    else ProfileView(artisan.value)
  }

  /** The REST resource the page fetches for the route parameter `id`. */
  function ResourceUrl(id: string): string
  {
    ApiBase + "/artisans/" + id
  }

  /** The "About" text: the record's description, or a sentence built from its name,
      lower-cased skill, experience and location when the description is absent or
      empty. */
  function AboutText(a: Artisan): string
  {
    if a.description.Some? && a.description.value != "" then a.description.value
    else Fallback(a)
  }

  function Fallback(a: Artisan): string
  {
    a.name + " is a skilled " + Lower(a.skill) + " with " + a.experience +
    " of experience in the field. Based in " + a.location +
    ", they are committed to providing quality workmanship and excellent customer service."
  }

  /** Where the generated text puts each field: the name first, then the lower-cased
      skill, the experience and the location, in that order. */
  lemma FallbackLayout(a: Artisan)
    ensures StartsWith(Fallback(a), a.name + " is a skilled ")
    ensures OccursAt(Fallback(a), Lower(a.skill), |a.name + " is a skilled "|)
    ensures OccursAt(Fallback(a), a.experience,
                     |a.name + " is a skilled " + Lower(a.skill) + " with "|)
    ensures OccursAt(Fallback(a), a.location,
                     |a.name + " is a skilled " + Lower(a.skill) + " with " + a.experience +
                      " of experience in the field. Based in "|)
  {
    var skill := Lower(a.skill);
    var mid := " of experience in the field. Based in ";
    var tail := ", they are committed to providing quality workmanship and excellent customer service.";
    var p1 := a.name + " is a skilled ";
    var p2 := p1 + skill + " with ";
    var p3 := p2 + a.experience + mid;
    var t := p3 + a.location + tail;
    assert t == Fallback(a);
    IncludesMiddle(p1, skill, " with ");
    OccursAtExtended(p2, skill, |p1|, a.experience);
    OccursAtExtended(p2 + a.experience, skill, |p1|, mid);
    IncludesMiddle(p2, a.experience, mid);
    IncludesMiddle(p3, a.location, tail);
    OccursAtExtended(p3, skill, |p1|, a.location);
    OccursAtExtended(p3 + a.location, skill, |p1|, tail);
    OccursAtExtended(p3, a.experience, |p2|, a.location);
    OccursAtExtended(p3 + a.location, a.experience, |p2|, tail);
  }

  /** A non-empty description is shown verbatim; otherwise the generated text opens
      with the name and then holds the lower-cased skill, the experience and the
      location, in that order, each where the template puts it. */
  lemma AboutTextContent(a: Artisan)
    ensures a.description.Some? && a.description.value != "" ==> AboutText(a) == a.description.value
    ensures a.description.None? || a.description.value == "" ==>
              StartsWith(AboutText(a), a.name + " is a skilled ") &&
              OccursAt(AboutText(a), Lower(a.skill), |a.name + " is a skilled "|) &&
              OccursAt(AboutText(a), a.experience,
                       |a.name + " is a skilled " + Lower(a.skill) + " with "|) &&
              OccursAt(AboutText(a), a.location,
                       |a.name + " is a skilled " + Lower(a.skill) + " with " + a.experience +
                        " of experience in the field. Based in "|)
    ensures a.description.None? || a.description.value == "" ==>
              Includes(AboutText(a), Lower(a.skill)) &&
              Includes(AboutText(a), a.experience) &&
              Includes(AboutText(a), a.location)
  {
    if a.description.None? || a.description.value == "" {
      FallbackLayout(a);
      IncludesIff(Fallback(a), Lower(a.skill));
      IncludesIff(Fallback(a), a.experience);
      IncludesIff(Fallback(a), a.location);
    }
  }

  class Page {
    var id: string
    var artisan: Option<Artisan>
    var loading: bool
    var error: string

    /** Once a fetch has settled there is a record or a message to show. */
    ghost predicate Valid()
      reads this
    {
      !loading ==> artisan.Some? || error != ""
    }

    /** Mounting on the route `/artisan/{routeId}`: loading, no error, no record. */
    constructor (routeId: string)
      ensures Valid()
      ensures id == routeId && loading && error == "" && artisan == None
    {
      id := routeId;
      artisan, loading, error := None, true, "";
    }

    /** `fetchArtisan()` settled with `response`: a record replaces the old one, a
        failure sets the message; neither clears the other, and loading always ends. */
    method FetchArtisan(response: Outcome<Artisan>) returns (url: string)
      requires Valid()
      modifies this`artisan, this`loading, this`error
      ensures Valid() && !loading && id == old(id)
      ensures url == ResourceUrl(id)
      ensures artisan == if response.Ok? then Some(response.data) else old(artisan)
      ensures error == if response.Ok? then old(error) else LoadError
      ensures View() != Spinner
    {
      loading := true;
      url := ResourceUrl(id);
      match response {
        case Ok(data) => artisan := Some(data);
        case Fail => error := LoadError;
      }
      loading := false;
    }

    /** The route parameter is set to `newId`: the effect on `[id]` fetches again only
        when the id differs, and otherwise nothing happens. */
    method ChangeId(newId: string, response: Outcome<Artisan>) returns (url: Option<string>)
      requires Valid()
      modifies this
      ensures Valid() && id == newId
      ensures newId == old(id) ==> url == None && unchanged(this)
      ensures newId != old(id) ==>
                !loading && url == Some(ResourceUrl(newId)) &&
                artisan == (if response.Ok? then Some(response.data) else old(artisan)) &&
                error == (if response.Ok? then old(error) else LoadError)
    {
      if newId == id {
        url := None;
      } else {
        id := newId;
        var u := FetchArtisan(response);
        url := Some(u);
      }
    }

    function View(): View
      reads this
    {
      ViewOf(loading, error, artisan)
    }
  }

  /** A fetch for an id the backend does not know ends in the error view with a
      non-empty message, not in the spinner. */
  method UnknownId(routeId: string) returns (v: View)
    ensures v == ErrorView(LoadError) && v.message != ""
  {
    var page := new Page(routeId);
    var _ := page.FetchArtisan(Fail);
    v := page.View();
  }

  /** An earlier failure keeps selecting the error view after navigating to another
      id that loads, because nothing clears the message. */
  method StaleError(first: string, second: string, found: Artisan) returns (v: View)
    ensures v == ErrorView(LoadError)
  {
    var page := new Page(first);
    var _ := page.FetchArtisan(Fail);
    var _ := page.ChangeId(second, Ok(found));
    v := page.View();
  }

  /** Setting the route parameter to the id already shown fetches nothing, so even a
      backend that would now fail cannot replace the profile with the error view. */
  method SameIdKeepsProfile(routeId: string, found: Artisan, later: Outcome<Artisan>) returns (v: View)
    ensures v == ProfileView(found)
  {
    var page := new Page(routeId);
    var _ := page.FetchArtisan(Ok(found));
    var url := page.ChangeId(routeId, later);
    assert url == None;
    v := page.View();
  }

  /** A successful first fetch shows the profile, whose avatar falls back to the
      initials of the name. */
  method FirstLoad(routeId: string, found: Artisan) returns (v: View, initials: string)
    ensures v == ProfileView(found)
    ensures |initials| == |NonEmpty(Split(found.name))|
  {
    var page := new Page(routeId);
    var _ := page.FetchArtisan(Ok(found));
    v := page.View();
    initials := GetInitials(found.name);
    InitialsLength(found.name);
  }
}
