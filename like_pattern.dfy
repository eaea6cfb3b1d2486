/** The `LIKE` comparison of an `NSPredicate`, as the event search uses it:
    the pattern is the reminder's title, unescaped, so `*` matches any run of
    characters (possibly empty) and `?` matches exactly one character. The
    comparison is case-sensitive and character by character. */
module LikePattern {

  /** Does string `s` match pattern `p`? */
  function Like(s: string, p: string): bool
    decreases |s| + |p|
  {
    if p == [] then s == []
    else if p[0] == '*' then Like(s, p[1..]) || (s != [] && Like(s[1..], p))
    else if s == [] then false
    else if p[0] == '?' then Like(s[1..], p[1..])
    else s[0] == p[0] && Like(s[1..], p[1..])
  }

  /** A pattern with no wildcard characters in it. */
  predicate NoWildcards(p: string)
  {
    forall i :: 0 <= i < |p| ==> p[i] != '*' && p[i] != '?'
  }

  /** A pattern without wildcards matches exactly the one string equal to
      it: no other string, and in particular no string differing only in
      letter case. */
  lemma {:induction false} LikeLiteral(s: string, p: string)
    requires NoWildcards(p)
    ensures Like(s, p) <==> s == p
    decreases |p|
  {
    if p != [] && s != [] {
      assert NoWildcards(p[1..]) by {
        forall i | 0 <= i < |p[1..]| ensures p[1..][i] != '*' && p[1..][i] != '?' {
          assert p[1..][i] == p[i + 1];
        }
      }
      LikeLiteral(s[1..], p[1..]);
      assert s == p <==> s[0] == p[0] && s[1..] == p[1..] by {
        if s[0] == p[0] && s[1..] == p[1..] {
          assert s == [s[0]] + s[1..] && p == [p[0]] + p[1..];
        }
      }
    }
  }

  /** Every string matches itself read as a pattern: whatever wildcards it
      holds, an event titled exactly like the reminder is never missed. */
  lemma {:induction false} LikeSelf(p: string)
    ensures Like(p, p)
    decreases |p|
  {
    if p != [] {
      LikeSelf(p[1..]);
      if p[0] == '*' {
        // the star absorbs its own character, then the rest matches itself
        assert Like(p[1..], p);
      }
    }
  }

  /** The pattern `*` matches every string. */
  lemma {:induction false} LikeStarMatchesAll(s: string)
    ensures Like(s, "*")
    decreases |s|
  {
    if s != [] {
      LikeStarMatchesAll(s[1..]);
    }
  }

  /** A pattern without `*` only matches strings of its own length. */
  lemma {:induction false} LikeNoStarLength(s: string, p: string)
    requires forall i :: 0 <= i < |p| ==> p[i] != '*'
    requires Like(s, p)
    ensures |s| == |p|
    decreases |p|
  {
    if p != [] {
      LikeNoStarLength(s[1..], p[1..]);
    }
  }

  /** A title ending in `*` matches titles it is not equal to: the reminder
      "Gym*" matches the event "Gym class". */
  lemma WildcardMatchesOtherTitle()
    ensures Like("Gym class", "Gym*") && "Gym class" != "Gym*"
  {
    LikeStarMatchesAll(" class");
    assert "Gym class"[3..] == " class";
  }
}
