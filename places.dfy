/**
 * The fixed dataset of points of interest shown by the map widget and the two
 * static tables that give every category its icon and its colour gradient.
 */
module Places {

  datatype Option<+T> = None | Some(value: T)

  /** A point of interest. Coordinates are only ever copied, never computed on. */
  datatype Location = Location(
    id: int,
    name: string,
    lat: real,
    lng: real,
    category: string,
    description: string)

  /** The eight locations the widget displays, in display order. */
  function Locations(): (locs: seq<Location>)
    ensures |locs| == 8
  {
    [ Location(1, "Центральная площадь", 55.755826, 37.617300, "landmark", "Главная площадь города"),
      Location(2, "Городской парк", 55.750000, 37.630000, "park", "Зелёная зона для отдыха"),
      Location(3, "Музей истории", 55.760000, 37.615000, "museum", "Исторический музей"),
      Location(4, "Торговый центр", 55.745000, 37.625000, "shopping", "Крупный ТЦ"),
      Location(5, "Набережная", 55.748000, 37.605000, "landmark", "Прогулочная зона у воды"),
      Location(6, "Спортивный комплекс", 55.765000, 37.620000, "sport", "Современный спорткомплекс"),
      Location(7, "Кафе \"Уют\"", 55.752000, 37.622000, "food", "Уютное кафе в центре"),
      Location(8, "Библиотека", 55.758000, 37.610000, "education", "Городская библиотека") ]
  }

  /** The categories the two lookup tables are written for. */
  function Categories(): set<string>
  {
    {"landmark", "park", "museum", "shopping", "sport", "food", "education"}
  }

  /** Category to icon name. */
  function CategoryIcons(): (m: map<string, string>)
    ensures m.Keys == Categories()
  {
    map[
      "landmark" := "Landmark",
      "park" := "Trees",
      "museum" := "Building2",
      "shopping" := "ShoppingBag",
      "sport" := "Dumbbell",
      "food" := "Coffee",
      "education" := "BookOpen"]
  }

  /** Category to the colour-gradient class pair used behind the icon. */
  function CategoryColors(): (m: map<string, string>)
    ensures m.Keys == Categories()
  {
    map[
      "landmark" := "from-blue-500 to-cyan-500",
      "park" := "from-green-500 to-emerald-500",
      "museum" := "from-purple-500 to-violet-500",
      "shopping" := "from-pink-500 to-rose-500",
      "sport" := "from-orange-500 to-amber-500",
      "food" := "from-red-500 to-orange-500",
      "education" := "from-indigo-500 to-blue-500"]
  }

  /** The set of categories that some location of the dataset uses. */
  function UsedCategories(locs: seq<Location>): (cs: set<string>)
    ensures forall i :: 0 <= i < |locs| ==> locs[i].category in cs
    ensures forall c :: c in cs ==> exists i :: 0 <= i < |locs| && locs[i].category == c
  {
    set i | 0 <= i < |locs| :: locs[i].category
  }

  /** Every category some location uses is one the tables are written for. */
  lemma UsedCategoriesListed()
    ensures UsedCategories(Locations()) <= Categories()
  {
  }

  /** Every category the tables are written for is used by some location. */
  lemma ListedCategoriesUsed()
    ensures Categories() <= UsedCategories(Locations())
  {
    var locs := Locations();
    var used := UsedCategories(locs);
    assert locs[0].category in used && locs[1].category in used;
    assert locs[2].category in used && locs[3].category in used;
    assert locs[5].category in used && locs[6].category in used;
    assert locs[7].category in used;
  }

  /**
   * The dataset uses exactly the categories both tables are written for:
   * every lookup the widget makes with a location's category finds an entry
   * in both tables, and neither table has an entry no location needs.
   */
  lemma CategoryTablesCoverDataset()
    ensures UsedCategories(Locations()) == CategoryIcons().Keys == CategoryColors().Keys
    ensures forall loc :: loc in Locations() ==>
      loc.category in CategoryIcons() && loc.category in CategoryColors()
  {
    UsedCategoriesListed();
    ListedCategoriesUsed();
  }

  /** Looks up the icon of a category; None where the table has no entry. */
  function IconOf(category: string): (r: Option<string>)
    ensures r.Some? <==> category in Categories()
    ensures r.Some? ==> r.value == CategoryIcons()[category]
  {
    if category in CategoryIcons() then Some(CategoryIcons()[category]) else None
  }

  /** Looks up the colour gradient of a category; None where the table has no entry. */
  function ColorOf(category: string): (r: Option<string>)
    ensures r.Some? <==> category in Categories()
    ensures r.Some? ==> r.value == CategoryColors()[category]
  {
    if category in CategoryColors() then Some(CategoryColors()[category]) else None
  }

  /** Neither lookup misses for a location of the dataset. */
  lemma DatasetLookupsNeverMiss(loc: Location)
    requires loc in Locations()
    ensures IconOf(loc.category).Some? && ColorOf(loc.category).Some?
  {
  }

  /**
   * The identifiers of the dataset are pairwise distinct (they key the
   * rendered lists), so no location occurs twice in the dataset.
   */
  lemma IdsDistinct()
    ensures forall i, j :: 0 <= i < j < |Locations()| ==> Locations()[i].id != Locations()[j].id
    ensures forall i, j :: 0 <= i < j < |Locations()| ==> Locations()[i] != Locations()[j]
  {
  }

  /** Neither case of the letter "z" occurs in `s`. */
  predicate NoZ(s: string)
  {
    forall k :: 0 <= k < |s| ==> s[k] != 'z' && s[k] != 'Z'
  }

  /** Neither case of the letter "z" occurs in any of the eight names. */
  lemma NoZInNames()
    ensures NoZ("Центральная площадь") && NoZ("Городской парк")
    ensures NoZ("Музей истории") && NoZ("Торговый центр")
    ensures NoZ("Набережная") && NoZ("Спортивный комплекс")
    ensures NoZ("Кафе \"Уют\"") && NoZ("Библиотека")
  {
    assert NoZ("Центральная площадь") && NoZ("Городской парк");
    assert NoZ("Музей истории") && NoZ("Торговый центр");
    assert NoZ("Набережная") && NoZ("Спортивный комплекс");
  }

  /** No name of the dataset contains the letter "z" in either case. */
  lemma NamesHaveNoZ(i: int)
    requires 0 <= i < |Locations()|
    ensures NoZ(Locations()[i].name)
  {
    NoZInNames();
    var locs := Locations();
    assert locs[0].name == "Центральная площадь" && locs[1].name == "Городской парк";
    assert locs[2].name == "Музей истории" && locs[3].name == "Торговый центр";
    assert locs[4].name == "Набережная" && locs[5].name == "Спортивный комплекс";
    assert locs[6].name == "Кафе \"Уют\"" && locs[7].name == "Библиотека";
  }

  /** No category of the dataset contains the letter "z" in either case. */
  lemma CategoriesHaveNoZ(i: int)
    requires 0 <= i < |Locations()|
    ensures NoZ(Locations()[i].category)
  {
    var cat := Locations()[i].category;
    if i == 0 || i == 4 { assert cat == "landmark"; }
    else if i == 1 { assert cat == "park"; }
    else if i == 2 { assert cat == "museum"; }
    else if i == 3 { assert cat == "shopping"; }
    else if i == 5 { assert cat == "sport"; }
    else if i == 6 { assert cat == "food"; }
    else { assert cat == "education"; }
  }
}
