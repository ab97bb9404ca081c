/**
 * The search box: a case-insensitive substring filter over the dataset, on the
 * location's name or its category, keeping the dataset's order.
 */
module Search {
  import opened Places

  /**
   * Lower-cases one character: Latin A-Z and the Cyrillic capitals
   * U+0400..U+042F (which include Ё) map to their small letters; every other
   * character is left as it is.
   */
  function LowerChar(c: char): (d: char)
    ensures 'A' <= c <= 'Z' ==> d as int == c as int + 32
    ensures 'А' <= c <= 'Я' ==> d as int == c as int + 0x20
    ensures 'Ѐ' <= c <= 'Џ' ==> d as int == c as int + 0x50
    ensures !('A' <= c <= 'Z' || 'Ѐ' <= c <= 'Я') ==> d == c
  {
    if 'A' <= c <= 'Z' then (c as int + 32) as char
    else if 'А' <= c <= 'Я' then (c as int + 0x20) as char
    else if 'Ѐ' <= c <= 'Џ' then (c as int + 0x50) as char
    else c
  }

  /** Lower-casing a character that is already lower case changes nothing. */
  lemma LowerCharIdempotent(c: char)
    ensures LowerChar(LowerChar(c)) == LowerChar(c)
  {
  }

  /** Lower-cases a string character by character. */
  function ToLower(s: string): (t: string)
    ensures |t| == |s|
    ensures forall i :: 0 <= i < |s| ==> t[i] == LowerChar(s[i])
  {
    seq(|s|, i requires 0 <= i < |s| => LowerChar(s[i]))
  }

  /** Lower-casing twice is lower-casing once. */
  lemma ToLowerIdempotent(s: string)
    ensures ToLower(ToLower(s)) == ToLower(s)
  {
  }

  /** `t` is a prefix of `s`. */
  predicate StartsWith(s: string, t: string)
  {
    |t| <= |s| && s[..|t|] == t
  }

  /** String containment as JavaScript's `includes`: some suffix of `s` starts with `t`. */
  predicate Includes(s: string, t: string)
    ensures Includes(s, t) ==> |t| <= |s|
    decreases |s|
  {
    StartsWith(s, t) || (|s| > 0 && Includes(s[1..], t))
  }

  /** `t` occurs in `s` starting at index `i`. */
  ghost predicate OccursAt(s: string, t: string, i: int)
  {
    0 <= i && i + |t| <= |s| && s[i..i + |t|] == t
  }

  /** An occurrence of `t` at any index of `s` makes `s` include `t`. */
  lemma {:induction false} OccursAtIncludes(s: string, t: string, i: int)
    requires OccursAt(s, t, i)
    ensures Includes(s, t)
    decreases i
  {
    if i == 0 {
      assert StartsWith(s, t);
    } else {
      assert s[1..][i - 1..i - 1 + |t|] == s[i..i + |t|];
      OccursAtIncludes(s[1..], t, i - 1);
    }
  }

  /** `Includes` holds exactly when `t` occurs in `s` at some index. */
  lemma {:induction false} IncludesIffOccurs(s: string, t: string)
    ensures Includes(s, t) <==> exists i :: OccursAt(s, t, i)
    decreases |s|
  {
    if exists i :: OccursAt(s, t, i) {
      var i :| OccursAt(s, t, i);
      OccursAtIncludes(s, t, i);
    } else if StartsWith(s, t) {
      assert OccursAt(s, t, 0);
    } else if |s| > 0 && Includes(s[1..], t) {
      IncludesIffOccurs(s[1..], t);
      var i :| OccursAt(s[1..], t, i);
      assert s[1..][i..i + |t|] == s[i + 1..i + 1 + |t|];
      assert OccursAt(s, t, i + 1);
    }
  }

  /** Every string includes the empty string. */
  lemma IncludesEmpty(s: string)
    ensures Includes(s, "")
  {
  }

  /** A query whose first character does not occur in `s` is not included in `s`. */
  lemma {:induction false} NotIncludedWithoutFirstChar(s: string, t: string)
    requires |t| > 0 && t[0] !in s
    ensures !Includes(s, t)
    decreases |s|
  {
    if |s| > 0 {
      assert s[0] != t[0];
      NotIncludedWithoutFirstChar(s[1..], t);
    }
  }

  /** The filter condition: the lower-cased name or category contains the lower-cased query. */
  predicate Matches(loc: Location, query: string)
    ensures query == "" ==> Matches(loc, query)
    ensures Matches(loc, query) ==> |query| <= |loc.name| || |query| <= |loc.category|
  {
    IncludesEmpty(ToLower(loc.name));
    Includes(ToLower(loc.name), ToLower(query)) || Includes(ToLower(loc.category), ToLower(query))
  }

  /** The query's case does not matter: it is compared only after lower-casing. */
  lemma MatchesIgnoresQueryCase(loc: Location, query: string)
    ensures Matches(loc, query) <==> Matches(loc, ToLower(query))
  {
    ToLowerIdempotent(query);
  }

  /** `sub` is `s` with some elements left out and the rest in their original order. */
  predicate IsSubsequence<T(==)>(sub: seq<T>, s: seq<T>)
    decreases |s|
  {
    if sub == [] then true
    else if s == [] then false
    else (sub[0] == s[0] && IsSubsequence(sub[1..], s[1..])) || IsSubsequence(sub, s[1..])
  }

  /**
   * The locations of `locs` that match `query`, in the order of `locs`: an
   * order-preserving subsequence that keeps every match and drops every
   * location that matches in neither field.
   */
  function Filter(locs: seq<Location>, query: string): (r: seq<Location>)
    ensures IsSubsequence(r, locs)
    ensures forall loc :: loc in r <==> loc in locs && Matches(loc, query)
    ensures |r| <= |locs|
    ensures |r| == |locs| <==> forall i :: 0 <= i < |locs| ==> Matches(locs[i], query)
  {
    if locs == [] then []
    else
      var rest := Filter(locs[1..], query);
      if Matches(locs[0], query) then
        assert ([locs[0]] + rest)[1..] == rest;
        [locs[0]] + rest
      else
        assert forall i :: 1 <= i < |locs| ==> locs[i] == locs[1..][i - 1];
        rest
  }

  /**
   * The filter keeps each matching location as many times as the input holds
   * it and drops every other one: the result is the input's multiset of
   * matches.
   */
  lemma {:induction false} FilterCounts(locs: seq<Location>, query: string)
    ensures forall x ::
      multiset(Filter(locs, query))[x] == (if Matches(x, query) then multiset(locs)[x] else 0)
  {
    if locs != [] {
      var rest := Filter(locs[1..], query);
      FilterCounts(locs[1..], query);
      assert locs == [locs[0]] + locs[1..];
      assert multiset(locs) == multiset{locs[0]} + multiset(locs[1..]);
      if Matches(locs[0], query) {
        assert Filter(locs, query) == [locs[0]] + rest;
      } else {
        assert Filter(locs, query) == rest;
      }
    }
  }

  /** The empty query keeps every location. */
  lemma {:induction false} EmptyQueryKeepsAll(locs: seq<Location>)
    ensures Filter(locs, "") == locs
  {
    if locs != [] {
      IncludesEmpty(ToLower(locs[0].name));
      EmptyQueryKeepsAll(locs[1..]);
    }
  }

  /**
   * The results panel under the search box is shown when the query is not
   * empty and at least one location of the dataset matches it.
   */
  predicate ResultsPanelShown(query: string)
    ensures ResultsPanelShown(query) ==> query != "" && exists loc :: loc in Locations() && Matches(loc, query)
  {
    var found := Filter(Locations(), query);
    query != "" && |found| > 0 && assert found[0] in found; true
  }

  /** The panel is shown exactly when the query is non-empty and some location matches it. */
  lemma ResultsPanelShownIff(query: string)
    ensures ResultsPanelShown(query) <==>
      query != "" && exists loc :: loc in Locations() && Matches(loc, query)
  {
    var r := Filter(Locations(), query);
    if r != [] {
      assert r[0] in r;
    }
  }

  /** With an empty query the panel is hidden, although the filter keeps everything. */
  lemma EmptyQueryHidesPanel()
    ensures !ResultsPanelShown("")
    ensures Filter(Locations(), "") == Locations()
  {
    EmptyQueryKeepsAll(Locations());
  }

  /** A query no location matches filters everything out. */
  lemma NoMatchFindsNothing(locs: seq<Location>, query: string)
    requires forall i :: 0 <= i < |locs| ==> !Matches(locs[i], query)
    ensures Filter(locs, query) == []
  {
  }

}
