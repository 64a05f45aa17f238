/** The client-side artisan filter of the Search page: a case-insensitive substring
    match on skill and on location, each switched off by an empty value or by its
    "All ..." sentinel. */
module Filter {
  import opened Domain
  import opened Text

  const AllSkills := "All Skills"
  const AllLocations := "All Locations"

  /** A query value constrains the search unless it is empty (falsy) or exactly the
      sentinel; the comparison is case-sensitive. */
  predicate Active(value: string, sentinel: string)
  {
    value != "" && value != sentinel
  }

  predicate SkillMatches(a: Artisan, skill: string)
  {
    Includes(Lower(a.skill), Lower(skill))
  }

  predicate LocationMatches(a: Artisan, location: string)
  {
    Includes(Lower(a.location), Lower(location))
  }

  /** What a record must satisfy to be listed for the query (skill, location). */
  predicate Satisfies(a: Artisan, skill: string, location: string)
  {
    (Active(skill, AllSkills) ==> SkillMatches(a, skill)) &&
    (Active(location, AllLocations) ==> LocationMatches(a, location))
  }

  /** `xs` can be obtained from `ys` by deleting elements, without reordering. */
  predicate SubsequenceOf<T(==)>(xs: seq<T>, ys: seq<T>)
    decreases |ys|
  {
    if xs == [] then true
    else if ys == [] then false
    else (xs[0] == ys[0] && SubsequenceOf(xs[1..], ys[1..])) || SubsequenceOf(xs, ys[1..])
  }

  /** `Array.prototype.filter` over artisans: the elements satisfying `p`, in their original order. */
  function Keep(xs: seq<Artisan>, p: Artisan -> bool): (r: seq<Artisan>)
    ensures |r| <= |xs|
    ensures forall x :: multiset(r)[x] == if p(x) then multiset(xs)[x] else 0
  {
    if xs == [] then []
    else
      var rest := Keep(xs[1..], p);
      assert xs == [xs[0]] + xs[1..];
      if p(xs[0]) then [xs[0]] + rest else rest
  }

  lemma {:induction false} KeepIsSubsequence(xs: seq<Artisan>, p: Artisan -> bool)
    ensures SubsequenceOf(Keep(xs, p), xs)
  {
    if xs != [] {
      KeepIsSubsequence(xs[1..], p);
      var rest := Keep(xs[1..], p);
      if p(xs[0]) {
        assert Keep(xs, p) == [xs[0]] + rest;
        assert ([xs[0]] + rest)[1..] == rest;
      }
    }
  }

  lemma {:induction false} SubsequenceTrans<T>(xs: seq<T>, ys: seq<T>, zs: seq<T>)
    requires SubsequenceOf(xs, ys) && SubsequenceOf(ys, zs)
    ensures SubsequenceOf(xs, zs)
    decreases |zs|
  {
    if xs != [] {
      assert ys != [] && zs != [];
      if ys[0] == zs[0] && SubsequenceOf(ys[1..], zs[1..]) {
        if xs[0] == ys[0] && SubsequenceOf(xs[1..], ys[1..]) {
          SubsequenceTrans(xs[1..], ys[1..], zs[1..]);
        } else {
          SubsequenceTrans(xs, ys[1..], zs[1..]);
        }
      } else {
        SubsequenceTrans(xs, ys, zs[1..]);
      }
    }
  }

  /** Keeping everything is the identity. */
  lemma {:induction false} KeepAll(xs: seq<Artisan>, p: Artisan -> bool)
    requires forall i :: 0 <= i < |xs| ==> p(xs[i])
    ensures Keep(xs, p) == xs
  {
    if xs != [] {
      KeepAll(xs[1..], p);
      assert [xs[0]] + xs[1..] == xs;
    }
  }

  /** Two filters commute. */
  lemma {:induction false} KeepCommutes(xs: seq<Artisan>, p: Artisan -> bool, q: Artisan -> bool)
    ensures Keep(Keep(xs, p), q) == Keep(Keep(xs, q), p)
  {
    if xs != [] {
      KeepCommutes(xs[1..], p, q);
      var x := xs[0];
      var rp, rq := Keep(xs[1..], p), Keep(xs[1..], q);
      var left := if p(x) then [x] + rp else rp;
      var right := if q(x) then [x] + rq else rq;
      assert Keep(xs, p) == left && Keep(xs, q) == right;
      if p(x) { assert left[0] == x && left[1..] == rp; }
      if q(x) { assert right[0] == x && right[1..] == rq; }
    }
  }

  function BySkill(xs: seq<Artisan>, skill: string): seq<Artisan>
  {
    if Active(skill, AllSkills) then Keep(xs, a => SkillMatches(a, skill)) else xs
  }

  function ByLocation(xs: seq<Artisan>, location: string): seq<Artisan>
  {
    if Active(location, AllLocations) then Keep(xs, a => LocationMatches(a, location)) else xs
  }

  /** `filterArtisans(skill, location)` applied to the list `xs`. */
  function FilterArtisans(xs: seq<Artisan>, skill: string, location: string): (r: seq<Artisan>)
    ensures |r| <= |xs|
    ensures xs == [] ==> r == []
  {
    var bySkill := BySkill(xs, skill);
    ByLocation(bySkill, location)
  }

  /** Nothing is added, duplicated or reordered. */
  lemma FilterIsSubsequence(xs: seq<Artisan>, skill: string, location: string)
    ensures SubsequenceOf(FilterArtisans(xs, skill, location), xs)
  {
    var s := BySkill(xs, skill);
    var skillP := a => SkillMatches(a, skill);
    var locP := a => LocationMatches(a, location);
    if Active(skill, AllSkills) { KeepIsSubsequence(xs, skillP); } else { SubsequenceRefl(xs); }
    if Active(location, AllLocations) { KeepIsSubsequence(s, locP); } else { SubsequenceRefl(s); }
    SubsequenceTrans(FilterArtisans(xs, skill, location), s, xs);
  }

  lemma {:induction false} SubsequenceRefl<T>(xs: seq<T>)
    ensures SubsequenceOf(xs, xs)
  {
    if xs != [] { SubsequenceRefl(xs[1..]); }
  }

  /** Each record appears in the result exactly as often as in the input when it
      satisfies the query, and not at all otherwise. */
  lemma FilterCounts(xs: seq<Artisan>, skill: string, location: string)
    ensures forall a :: multiset(FilterArtisans(xs, skill, location))[a] ==
                        if Satisfies(a, skill, location) then multiset(xs)[a] else 0
  {
  }

  /** Soundness: every listed record matches each active part of the query. */
  lemma FilterSound(xs: seq<Artisan>, skill: string, location: string)
    ensures forall a :: a in FilterArtisans(xs, skill, location) ==>
              (Active(skill, AllSkills) ==> Includes(Lower(a.skill), Lower(skill))) &&
              (Active(location, AllLocations) ==> Includes(Lower(a.location), Lower(location)))
  {
    var r := FilterArtisans(xs, skill, location);
    FilterCounts(xs, skill, location);
    forall a | a in r
      ensures (Active(skill, AllSkills) ==> Includes(Lower(a.skill), Lower(skill))) &&
              (Active(location, AllLocations) ==> Includes(Lower(a.location), Lower(location)))
    {
      assert multiset(r)[a] > 0;
      assert Satisfies(a, skill, location);
    }
  }

  /** Completeness: every input record that matches each active part is listed. */
  lemma FilterComplete(xs: seq<Artisan>, skill: string, location: string)
    ensures forall i :: 0 <= i < |xs| && Satisfies(xs[i], skill, location) ==>
              xs[i] in FilterArtisans(xs, skill, location)
  {
    FilterCounts(xs, skill, location);
  }

  /** An empty or sentinel skill and location list every record, in order. */
  lemma FilterInactiveIsIdentity(xs: seq<Artisan>, skill: string, location: string)
    requires !Active(skill, AllSkills) && !Active(location, AllLocations)
    ensures FilterArtisans(xs, skill, location) == xs
  {
  }

  /** Filtering a second time with the same query changes nothing. */
  lemma FilterIdempotent(xs: seq<Artisan>, skill: string, location: string)
    ensures FilterArtisans(FilterArtisans(xs, skill, location), skill, location) ==
            FilterArtisans(xs, skill, location)
  {
    var r := FilterArtisans(xs, skill, location);
    FilterCounts(xs, skill, location);
    forall i | 0 <= i < |r| ensures Satisfies(r[i], skill, location) {
      assert r[i] in multiset(r);
    }
    var s := BySkill(r, skill);
    if Active(skill, AllSkills) { KeepAll(r, a => SkillMatches(a, skill)); }
    assert s == r;
    if Active(location, AllLocations) { KeepAll(r, a => LocationMatches(a, location)); }
  }

  /** The skill and the location filters can be applied in either order. */
  lemma FilterOrderIrrelevant(xs: seq<Artisan>, skill: string, location: string)
    ensures ByLocation(BySkill(xs, skill), location) == BySkill(ByLocation(xs, location), skill)
  {
    if Active(skill, AllSkills) && Active(location, AllLocations) {
      KeepCommutes(xs, a => SkillMatches(a, skill), a => LocationMatches(a, location));
    }
  }

  /** The lower-cased forms of the example's words. */
  lemma LowerPlumbWords()
    ensures Lower("Plumber") == "plumber"
    ensures Lower("Mason") == "mason"
    ensures Lower("plumb") == "plumb"
  {
    assert LowerChar('P') == 'p' && LowerChar('M') == 'm';
  }

  /** "plumb" matches the skill "Plumber" and not the skill "Mason", ignoring case. */
  lemma PlumbMatchesPlumberOnly(plumber: Artisan, mason: Artisan)
    requires plumber.skill == "Plumber" && mason.skill == "Mason"
    ensures SkillMatches(plumber, "plumb") && !SkillMatches(mason, "plumb")
  {
    LowerPlumbWords();
    assert StartsWith("plumber", "plumb");
    assert !StartsWith("mason", "plumb") by { assert "mason"[0] != "plumb"[0]; }
    assert "mason"[1..] == "ason";
    IncludesNeedsRoom("ason", "plumb");
  }

  /** The worked example: "plumb" finds the plumber and not the mason, wherever
      either of them is based. */
  lemma PlumbExample(plumber: Artisan, mason: Artisan)
    requires plumber.skill == "Plumber" && mason.skill == "Mason"
    ensures FilterArtisans([plumber, mason], "plumb", "") == [plumber]
  {
    PlumbMatchesPlumberOnly(plumber, mason);
    var p := a => SkillMatches(a, "plumb");
    assert Keep([mason], p) == [];
    assert [plumber, mason][1..] == [mason];
  }
}
