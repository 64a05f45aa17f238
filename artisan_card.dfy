/** The artisan card of the search results: an avatar with the initials and a
    "View Profile" link to the profile route. */
module ArtisanCard {
  import opened Domain
  import opened Text
  import opened Initials

  const ProfilePrefix := "/artisan/"

  /** The "View Profile" link target, `/artisan/${artisan.id}`. */
  function ProfilePath(id: int): (r: string)
    ensures StartsWith(r, ProfilePrefix)
  {
    ProfilePrefix + IntToString(id)
  }

  /** The routing table's `/artisan/:id` pattern: one non-empty segment after the
      prefix, handed to the profile page as its `id` parameter. */
  function RouteId(path: string): Option<string>
  {
    if StartsWith(path, ProfilePrefix) && |path| > |ProfilePrefix| && '/' !in path[|ProfilePrefix|..]
    then Some(path[|ProfilePrefix|..])
    else None
  }

  /** Following a card's link opens the profile route with the artisan's id, as text. */
  lemma ProfileLinkRoutes(id: int)
    ensures RouteId(ProfilePath(id)) == Some(IntToString(id))
  {
    var p := ProfilePath(id);
    assert p[|ProfilePrefix|..] == IntToString(id);
  }

  /** Different artisans get different links. */
  lemma ProfileLinkIdentifies(i: int, j: int)
    ensures ProfilePath(i) == ProfilePath(j) ==> i == j
  {
    if ProfilePath(i) == ProfilePath(j) {
      assert ProfilePath(i)[|ProfilePrefix|..] == IntToString(i);
      assert ProfilePath(j)[|ProfilePrefix|..] == IntToString(j);
      IntToStringInjective(i, j);
    }
  }

  /** The avatar fallback: the card shows the name's initials. */
  function AvatarFallback(a: Artisan): (r: string)
    ensures |r| == |NonEmpty(Split(a.name))|
  {
    InitialsLength(a.name);
    GetInitials(a.name)
  }
}
