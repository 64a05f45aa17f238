/** `getInitials(name)`, which the artisan card and the profile page each define
    identically: split on " ", take each piece's first character, join, upper-case. */
module Initials {
  import opened Text

  predicate NoSpace(s: string)
  {
    forall i :: 0 <= i < |s| ==> s[i] != ' '
  }

  /** `s.split(" ")`: always at least one piece, none containing a space; an empty
      piece stands for each leading, trailing or doubled space. */
  function Split(s: string): (r: seq<string>)
    ensures |r| >= 1
    ensures forall i :: 0 <= i < |r| ==> NoSpace(r[i])
  {
    if s == [] then [""]
    else if s[0] == ' ' then [""] + Split(s[1..])
    else
      var rest := Split(s[1..]);
      [[s[0]] + rest[0]] + rest[1..]
  }

  /** `pieces.join(" ")`. */
  function JoinSpace(pieces: seq<string>): string
    requires |pieces| >= 1
  {
    if |pieces| == 1 then pieces[0] else pieces[0] + " " + JoinSpace(pieces[1..])
  }

  /** Splitting loses nothing: joining the pieces with " " gives the name back. */
  lemma {:induction false} SplitJoin(s: string)
    ensures JoinSpace(Split(s)) == s
  {
    if s != [] {
      SplitJoin(s[1..]);
      var rest := Split(s[1..]);
      if s[0] == ' ' {
        assert ([""] + rest)[1..] == rest;
      } else {
        var r := [[s[0]] + rest[0]] + rest[1..];
        if |rest| > 1 {
          assert r[1..] == rest[1..];
          assert JoinSpace(rest) == rest[0] + " " + JoinSpace(rest[1..]);
        }
      }
    }
  }

  /** Splitting at a space splits the two sides independently. */
  lemma {:induction false} SplitAtSpace(a: string, b: string)
    ensures Split(a + " " + b) == Split(a) + Split(b)
  {
    var s := a + " " + b;
    if a == [] {
      assert s[0] == ' ' && s[1..] == b;
    } else {
      assert s[0] == a[0] && s[1..] == a[1..] + " " + b;
      SplitAtSpace(a[1..], b);
      var ra, sb := Split(a[1..]), Split(b);
      assert Split(s[1..]) == ra + sb;
      if a[0] == ' ' {
        assert Split(s) == [""] + (ra + sb);
        assert Split(a) == [""] + ra;
      } else {
        var rest := ra + sb;
        assert rest[0] == ra[0] && rest[1..] == ra[1..] + sb;
        assert Split(s) == [[a[0]] + rest[0]] + rest[1..];
        assert Split(a) == [[a[0]] + ra[0]] + ra[1..];
      }
    }
  }

  /** A string without spaces is a single piece. */
  lemma {:induction false} SplitNoSpace(s: string)
    requires NoSpace(s)
    ensures Split(s) == [s]
  {
    if s != [] {
      SplitNoSpace(s[1..]);
      assert [s[0]] + s[1..] == s;
    }
  }

  /** `n[0]`, or "" for an empty piece, where `undefined` joins as "". */
  function FirstChar(piece: string): (r: string)
    ensures |r| <= 1
  {
    if piece == "" then "" else [piece[0]]
  }

  /** `pieces.map((n) => n[0]).join("")`. */
  function FirstChars(pieces: seq<string>): string
  {
    if pieces == [] then "" else FirstChar(pieces[0]) + FirstChars(pieces[1..])
  }

  function GetInitials(name: string): string
  {
    Upper(FirstChars(Split(name)))
  }

  lemma {:induction false} FirstCharsAppend(xs: seq<string>, ys: seq<string>)
    ensures FirstChars(xs + ys) == FirstChars(xs) + FirstChars(ys)
  {
    if xs == [] {
      assert xs + ys == ys;
    } else {
      FirstCharsAppend(xs[1..], ys);
      assert (xs + ys)[0] == xs[0] && (xs + ys)[1..] == xs[1..] + ys;
    }
  }

  /** Each word contributes its first character, in order, and empty pieces nothing. */
  lemma {:induction false} FirstCharsOfWords(pieces: seq<string>)
    ensures |FirstChars(pieces)| == |NonEmpty(pieces)|
    ensures forall i :: 0 <= i < |NonEmpty(pieces)| ==> FirstChars(pieces)[i] == NonEmpty(pieces)[i][0]
  {
    if pieces != [] {
      FirstCharsOfWords(pieces[1..]);
      if pieces[0] != "" {
        var w := NonEmpty(pieces);
        assert w == [pieces[0]] + NonEmpty(pieces[1..]);
        forall i | 0 <= i < |w| ensures FirstChars(pieces)[i] == w[i][0] {
          if i > 0 { assert w[i] == NonEmpty(pieces[1..])[i - 1]; }
        }
      }
    }
  }

  /** One initial per non-empty piece of the name. */
  lemma InitialsLength(name: string)
    ensures |GetInitials(name)| == |NonEmpty(Split(name))|
  {
    FirstCharsOfWords(Split(name));
  }

  /** Initial i is the upper-case first character of the i-th non-empty piece. */
  lemma InitialsAt(name: string, i: nat)
    requires i < |NonEmpty(Split(name))|
    ensures i < |GetInitials(name)|
    ensures GetInitials(name)[i] == UpperChar(NonEmpty(Split(name))[i][0])
  {
    FirstCharsOfWords(Split(name));
  }

  lemma InitialsOfEmpty()
    ensures GetInitials("") == ""
  {
    assert Split("") == [""];
  }

  /** A leading space contributes nothing. */
  lemma LeadingSpace(a: string)
    ensures GetInitials(" " + a) == GetInitials(a)
  {
    assert (" " + a)[0] == ' ' && (" " + a)[1..] == a;
    assert Split(" " + a) == [""] + Split(a);
    FirstCharsAppend([""], Split(a));
    assert FirstChars([""]) == "";
  }

  /** A trailing space contributes nothing. */
  lemma TrailingSpace(a: string)
    ensures GetInitials(a + " ") == GetInitials(a)
  {
    SplitAtSpace(a, "");
    assert a + " " + "" == a + " ";
    FirstCharsAppend(Split(a), [""]);
    assert FirstChars([""]) == "";
  }

  /** A doubled space between two parts contributes nothing more than a single one. */
  lemma DoubledSpace(a: string, b: string)
    ensures GetInitials(a + "  " + b) == GetInitials(a + " " + b)
  {
    SplitAtSpace(a, " " + b);
    assert a + "  " + b == a + " " + (" " + b);
    assert (" " + b)[0] == ' ' && (" " + b)[1..] == b;
    assert Split(" " + b) == [""] + Split(b);
    FirstCharsAppend([""], Split(b));
    assert FirstChars([""]) == "";
    FirstCharsAppend(Split(a), Split(" " + b));
    SplitAtSpace(a, b);
    FirstCharsAppend(Split(a), Split(b));
  }

  /** Only " " separates: a tab stays inside a piece. */
  lemma TabDoesNotSeparate()
    ensures GetInitials("a\tb") == "A"
  {
    var name := "a\tb";
    assert NoSpace(name);
    SplitNoSpace(name);
    assert FirstChars([name]) == FirstChar(name) + FirstChars([]);
    assert FirstChars([name]) == "a";
    assert Upper("a") == "A";
  }

  lemma {:induction false} FirstCharsNoSpace(pieces: seq<string>)
    requires forall i :: 0 <= i < |pieces| ==> NoSpace(pieces[i])
    ensures NoSpace(FirstChars(pieces))
  {
    if pieces != [] {
      FirstCharsNoSpace(pieces[1..]);
    }
  }

  /** The initials contain no space, so taking initials again keeps only the first. */
  lemma InitialsOfInitials(name: string)
    ensures GetInitials(GetInitials(name)) ==
            if GetInitials(name) == "" then "" else GetInitials(name)[..1]
  {
    var t := GetInitials(name);
    var f := FirstChars(Split(name));
    FirstCharsNoSpace(Split(name));
    forall i | 0 <= i < |t| ensures t[i] != ' ' {
    }
    SplitNoSpace(t);
    if t != "" {
      assert FirstChars([t]) == [t[0]];
      assert t[0] == UpperChar(f[0]);
      assert Upper([t[0]]) == [UpperChar(t[0])];
    }
  }
}
