/** `URLSearchParams` as an ordered list of key/value pairs, and the rule Home and
    Search share for turning a (skill, location) query into URL parameters. */
module QueryParams {
  import opened Domain
  import opened Filter

  datatype Param = Param(key: string, value: string)

  predicate HasKey(ps: seq<Param>, key: string)
  {
    exists i :: 0 <= i < |ps| && ps[i].key == key
  }

  /** `params.get(key)`: the value of the first pair with that key, or null. */
  function Get(ps: seq<Param>, key: string): (r: Option<string>)
    ensures r.None? <==> !HasKey(ps, key)
  {
    if ps == [] then None
    else if ps[0].key == key then Some(ps[0].value)
    else Get(ps[1..], key)
  }

  function Without(ps: seq<Param>, key: string): (r: seq<Param>)
    ensures !HasKey(r, key)
    ensures forall k :: k != key ==> Get(r, k) == Get(ps, k)
  {
    if ps == [] then []
    else if ps[0].key == key then Without(ps[1..], key)
    else [ps[0]] + Without(ps[1..], key)
  }

  /** `params.set(key, value)`: the first pair with the key takes the value and the
      later ones are removed; without such a pair, one is appended. */
  function Set(ps: seq<Param>, key: string, value: string): (r: seq<Param>)
  {
    if ps == [] then [Param(key, value)]
    else if ps[0].key == key then [Param(key, value)] + Without(ps[1..], key)
    else [ps[0]] + Set(ps[1..], key, value)
  }

  /** After `set`, `get` of that key yields the new value and every other key is
      untouched. */
  lemma {:induction false} GetSet(ps: seq<Param>, key: string, value: string, other: string)
    ensures Get(Set(ps, key, value), key) == Some(value)
    ensures other != key ==> Get(Set(ps, key, value), other) == Get(ps, other)
  {
    if ps != [] && ps[0].key != key {
      GetSet(ps[1..], key, value, other);
    }
  }

  /** The handlers' `handleSearch(skill, location)` parameter building: set `skill`
      and then `location`, each only when it is non-empty and not its sentinel. */
  function SearchParams(skill: string, location: string): seq<Param>
  {
    var withSkill := if Active(skill, AllSkills) then Set([], "skill", skill) else [];
    if Active(location, AllLocations) then Set(withSkill, "location", location) else withSkill
  }

  /** The built list holds at most the two pairs, skill first, each present exactly
      when its value is active, and with the value verbatim. */
  lemma SearchParamsShape(skill: string, location: string)
    ensures SearchParams(skill, location) ==
            (if Active(skill, AllSkills) then [Param("skill", skill)] else []) +
            (if Active(location, AllLocations) then [Param("location", location)] else [])
  {
    if Active(skill, AllSkills) && Active(location, AllLocations) {
      assert Set([Param("skill", skill)], "location", location) ==
             [Param("skill", skill)] + Set([], "location", location);
    }
  }

  /** `searchParams.get(key) || ""`: a missing key reads as the empty string. */
  function ParamValue(ps: seq<Param>, key: string): string
  {
    match Get(ps, key)
    case None => ""
    case Some(v) => v
  }

  /** Reading the parameters back gives the active values and "" for the others. */
  lemma ReadBack(skill: string, location: string)
    ensures ParamValue(SearchParams(skill, location), "skill") ==
            (if Active(skill, AllSkills) then skill else "")
    ensures ParamValue(SearchParams(skill, location), "location") ==
            (if Active(location, AllLocations) then location else "")
  {
    SearchParamsShape(skill, location);
    var ps := SearchParams(skill, location);
    assert "skill" != "location" by { assert |"skill"| != |"location"|; }
    if Active(skill, AllSkills) && Active(location, AllLocations) {
      assert ps[0].key != "location" && ps[1..] == [Param("location", location)];
      assert Get(ps, "location") == Get(ps[1..], "location");
    }
  }

  /** Filtering with the values read back from the URL lists the same records as
      filtering with the raw arguments: a sentinel and "" are equally inactive. */
  lemma ReadBackFiltersAlike(xs: seq<Artisan>, skill: string, location: string)
    ensures FilterArtisans(xs, ParamValue(SearchParams(skill, location), "skill"),
                               ParamValue(SearchParams(skill, location), "location")) ==
            FilterArtisans(xs, skill, location)
  {
    ReadBack(skill, location);
  }

  /** `params.toString()` without percent-encoding: `key=value` pairs joined by `&`. */
  function QueryString(ps: seq<Param>): (r: string)
    ensures ps == [] <==> r == []
  {
    if ps == [] then ""
    else if |ps| == 1 then ps[0].key + "=" + ps[0].value
    else ps[0].key + "=" + ps[0].value + "&" + QueryString(ps[1..])
  }
  /** Two pairs serialise as "k1=v1&k2=v2". */
  lemma QueryStringOfPair(first: Param, second: Param)
    ensures QueryString([first, second]) ==
            first.key + "=" + first.value + "&" + second.key + "=" + second.value
  {
    assert [first, second][1..] == [second];
  }

}
