/**
 * The search behaviour on the widget's own dataset, for the example queries
 * "Парк" (a name, typed with a capital), "food" (a category) and "zzz" (nothing).
 */
module SearchExamples {
  import opened Places
  import opened Search

  /** The city park's lower-cased name contains "парк", so "парк" matches it. */
  lemma CityParkMatchesPark()
    ensures Includes(ToLower(Locations()[1].name), "парк")
    ensures Matches(Locations()[1], "парк")
  {
    var name := ToLower(Locations()[1].name);
    assert name[10..14] == "парк";
    OccursAtIncludes(name, "парк", 10);
    assert ToLower("парк") == "парк";
  }

  /** "Парк" and "ПАРК" are both spellings of "парк". */
  lemma ParkSpellings()
    ensures ToLower("Парк") == "парк" && ToLower("ПАРК") == "парк"
  {
  }

  /**
   * Any spelling of "парк" (for instance "Парк" or "ПАРК") finds the city
   * park, by its name, and shows the results panel.
   */
  lemma ParkQueryFindsCityPark()
    ensures forall q :: ToLower(q) == "парк" ==>
      Locations()[1] in Filter(Locations(), q) && ResultsPanelShown(q)
  {
    CityParkMatchesPark();
    var park := Locations()[1];
    assert park in Locations();
    forall q | ToLower(q) == "парк"
      ensures park in Filter(Locations(), q) && ResultsPanelShown(q)
    {
      MatchesIgnoresQueryCase(park, q);
      assert Matches(park, q) && |q| == 4;
      ResultsPanelShownIff(q);
    }
  }

  /** The query "food" finds the cafe through its category. */
  lemma FoodQueryFindsCafe()
    ensures Locations()[6] in Filter(Locations(), "food")
  {
  }

  /** A string with no "z" in either case does not include "zzz" once lower-cased. */
  lemma NoZNoZzz(s: string)
    requires NoZ(s)
    ensures !Includes(ToLower(s), "zzz")
  {
    var t := ToLower(s);
    forall k | 0 <= k < |t|
      ensures t[k] != 'z'
    {
      assert s[k] != 'z' && s[k] != 'Z';
    }
    NotIncludedWithoutFirstChar(t, "zzz");
  }

  /** No location matches "zzz", in its name or in its category. */
  lemma NoLocationMatchesZzz(i: int)
    requires 0 <= i < |Locations()|
    ensures !Matches(Locations()[i], "zzz")
  {
    assert ToLower("zzz") == "zzz";
    NamesHaveNoZ(i);
    CategoriesHaveNoZ(i);
    NoZNoZzz(Locations()[i].name);
    NoZNoZzz(Locations()[i].category);
  }

  /** Hence the query "zzz" finds nothing and the results panel stays hidden. */
  lemma ZzzQueryFindsNothing()
    ensures Filter(Locations(), "zzz") == []
    ensures !ResultsPanelShown("zzz")
  {
    forall i | 0 <= i < |Locations()|
      ensures !Matches(Locations()[i], "zzz")
    {
      NoLocationMatchesZzz(i);
    }
    NoMatchFindsNothing(Locations(), "zzz");
  }
}
