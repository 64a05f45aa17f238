/** The search bar: a skill picked from a fixed list, a free-text location, and a
    submit that hands both, untouched, to the page's `onSearch`. */
module SearchBar {
  import opened Domain
  import opened Filter

  /** The options of the skill select: the sentinel and the eight trades. */
  const SkillOptions: seq<string> :=
    ["All Skills", "Carpenter", "Plumber", "Mason", "Electrician", "Mechanic", "Tailor", "Painter", "Welder"]

  /** Declared beside the skills but never rendered: the location is typed. */
  const LocationOptions: seq<string> :=
    ["All Locations", "Nairobi", "Mombasa", "Kisumu", "Nakuru", "Eldoret", "Thika", "Malindi"]

  /** The arguments of one `onSearch(skill, location)` call. */
  datatype Query = Query(skill: string, location: string)

  /** Every skill option but the first constrains the search. */
  lemma SkillOptionsActivity()
    ensures forall i :: 0 <= i < |SkillOptions| ==> (Active(SkillOptions[i], AllSkills) <==> i > 0)
  {
    forall i | 0 <= i < |SkillOptions|
      ensures Active(SkillOptions[i], AllSkills) <==> i > 0
    {
      if i > 0 { assert |SkillOptions[i]| != |AllSkills|; }
    }
  }

  class Bar {
    var skill: string
    var location: string

    /** The skill is still unset or one of the options offered. */
    ghost predicate Valid()
      reads this
    {
      skill == "" || skill in SkillOptions
    }

    constructor ()
      ensures Valid() && skill == "" && location == ""
    {
      skill, location := "", "";
    }

    /** The select's `onValueChange`: only an offered option can arrive. */
    method SelectSkill(option: string)
      requires Valid() && option in SkillOptions
      modifies this`skill
      ensures Valid() && skill == option && location == old(location)
    {
      skill := option;
    }

    /** The location input's `onChange`. */
    method TypeLocation(text: string)
      requires Valid()
      modifies this`location
      ensures Valid() && location == text && skill == old(skill)
    {
      location := text;
    }

    /** `handleSearch()`: the current pair, with no trimming or mapping. */
    method HandleSearch() returns (q: Query)
      requires Valid()
      ensures q.skill == skill && q.location == location
      ensures q.skill == "" || q.skill in SkillOptions
    {
      q := Query(skill, location);
    }

    /** `handleKeyPress(e)` in the location input: only "Enter" searches. */
    method HandleKeyPress(key: string) returns (q: Option<Query>)
      requires Valid()
      ensures q.Some? <==> key == "Enter"
      ensures q.Some? ==> q.value == Query(skill, location)
    {
      if key == "Enter" {
        var submitted := HandleSearch();
        q := Some(submitted);
      } else {
        q := None;
      }
    }
  }

  /** Submitting an untouched bar asks for everything: both values are inactive. */
  method SubmitUntouched() returns (q: Query)
    ensures !Active(q.skill, AllSkills) && !Active(q.location, AllLocations)
  {
    var bar := new Bar();
    q := bar.HandleSearch();
  }
}
