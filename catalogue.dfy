/** The monster catalogue helpers: the normalisation of raw catalogue records, the filter used
    by the search screens, the two lookups and the statistics by element, category and stars.
    The web application and the older library keep identical copies of the helpers; they are
    modelled once here. */
module Catalogue {
  import opened Common

  /** A catalogue monster as the application uses it. */
  datatype Monster = Monster(
    id: int,
    nom: string,
    element: string,
    etoiles: int,
    categorie: string,
    imageUrl: Option<string>,
    slug: Option<string>,
    archetype: Option<string>,
    isAwakened: Option<bool>)

  // ---------------------------------------------------------------------------
  // Normalisation of raw records
  // ---------------------------------------------------------------------------

  /** A record of the raw catalogue file; every field may be missing. Fields are named after
      the file's keys, which mix both spellings of several of them. */
  datatype RawMonster = RawMonster(
    id: Option<int>,
    name: Option<string>,
    nom: Option<string>,
    slug: Option<string>,
    element: Option<string>,
    natural_stars: Option<int>,
    naturalStars: Option<int>,
    etoiles: Option<int>,
    image_filename: Option<string>,
    imageUrl: Option<string>,
    archetype: Option<string>,
    is_awakened: Option<bool>,
    isAwakened: Option<bool>)

  /** The parsed file: a list of records, or an object whose `monstres` field may hold one. */
  datatype RawCatalogue = RawList(items: seq<RawMonster>) | RawObject(monstres: Option<seq<RawMonster>>)

  /** The records of the parsed file; an object without `monstres` has none. */
  function RawItems(raw: RawCatalogue): seq<RawMonster>
  {
    match raw
    case RawList(items) => items
    case RawObject(monstres) => if monstres.Some? then monstres.value else []
  }

  /** English element names, capitalised or lower-case, to French. */
  const ElementMap: map<string, string> := map[
    "Fire" := "Feu", "Water" := "Eau", "Wind" := "Vent", "Light" := "Lumière", "Dark" := "Ténèbres",
    "fire" := "Feu", "water" := "Eau", "wind" := "Vent", "light" := "Lumière", "dark" := "Ténèbres"]

  const FrenchElements: set<string> := {"Feu", "Eau", "Vent", "Lumière", "Ténèbres"}

  /** `elementMap[raw] || raw`: the French name of a known English name, else the value itself. */
  function TranslateElement(raw: string): string
  {
    if raw in ElementMap then ElementMap[raw] else raw
  }

  /** `getCategorie`: three special cases and the general rule, "Nat" and the number. */
  function GetCategorie(etoiles: int): string
  {
    if etoiles == 3 then "Nat3"
    else if etoiles == 4 then "Nat4"
    else if etoiles == 5 then "Nat5"
    else "Nat" + IntToString(etoiles)
  }

  /** The name: `name`, `nom`, `slug`, or "Unknown". */
  function RawName(raw: RawMonster): string
  {
    var n := OrString(OrString(raw.name, raw.nom), raw.slug);
    if TruthyString(n) then n.value else "Unknown"
  }

  /** The element: the French name of `element`, "Wind" (so "Vent") when it is missing. */
  function RawElement(raw: RawMonster): string
  {
    TranslateElement(if TruthyString(raw.element) then raw.element.value else "Wind")
  }

  /** The stars: `natural_stars`, `naturalStars`, `etoiles`, or 5. */
  function RawStars(raw: RawMonster): int
  {
    var n := OrNumber(OrNumber(raw.natural_stars, raw.naturalStars), raw.etoiles);
    if TruthyNumber(n) then n.value else 5
  }

  /** The id: `id`, or the position plus one when it is missing or zero. */
  function RawId(raw: RawMonster, index: nat): int
  {
    if TruthyNumber(raw.id) then raw.id.value else index + 1
  }

  /** The record built for the raw record at `index` when the catalogue is loaded. */
  function Normalize(raw: RawMonster, index: nat): Monster
  {
    var etoiles := RawStars(raw);
    Monster(RawId(raw, index), RawName(raw), RawElement(raw), etoiles, GetCategorie(etoiles),
            OrString(raw.image_filename, raw.imageUrl), raw.slug, raw.archetype,
            OrBool(raw.is_awakened, raw.isAwakened))
  }

  /** The catalogue as loaded: one normalised record per raw record, in order. */
  function LoadedMonsters(raw: RawCatalogue): (r: seq<Monster>)
    ensures |r| == |RawItems(raw)|
    ensures forall i :: 0 <= i < |r| ==> r[i] == Normalize(RawItems(raw)[i], i)
  {
    var items := RawItems(raw);
    seq(|items|, i requires 0 <= i < |items| => Normalize(items[i], i))
  }

  /** The category is always "Nat" followed by the number of stars: the special cases agree
      with the general rule. */
  lemma CategorieIsNatPlusStars(etoiles: int)
    ensures GetCategorie(etoiles) == "Nat" + IntToString(etoiles)
  {
    if 3 <= etoiles <= 5 {
      assert NatToString(etoiles) == [DigitChar(etoiles)];
    }
  }

  /** The map turns both spellings of the five English names into the same French name, and
      every name it produces is one of the five French elements. */
  lemma ElementMapShape()
    ensures forall e :: e in ElementMap ==> ElementMap[e] in FrenchElements
    ensures ElementMap["Fire"] == ElementMap["fire"] && ElementMap["Water"] == ElementMap["water"]
    ensures ElementMap["Wind"] == ElementMap["wind"] && ElementMap["Light"] == ElementMap["light"]
    ensures ElementMap["Dark"] == ElementMap["dark"]
    ensures |ElementMap.Keys| == 10
  {
  }

  /** A normalised record always has a name, never zero stars, a category naming those stars,
      never the id zero, and an element: missing elements become "Vent", English ones French
      ones, and any other value is kept. */
  lemma NormalizeShape(raw: RawMonster, index: nat)
    ensures var m := Normalize(raw, index);
      && m.nom != ""
      && m.etoiles != 0 && m.categorie == "Nat" + IntToString(m.etoiles)
      && (TruthyNumber(raw.id) ==> m.id == raw.id.value)
      && (!TruthyNumber(raw.id) ==> m.id == index + 1)
      && m.id != 0
      && (!TruthyString(raw.element) ==> m.element == "Vent")
      && (TruthyString(raw.element) && raw.element.value in ElementMap ==> m.element in FrenchElements)
      && (TruthyString(raw.element) && raw.element.value !in ElementMap ==> m.element == raw.element.value)
      && (!TruthyNumber(raw.natural_stars) && !TruthyNumber(raw.naturalStars) && !TruthyNumber(raw.etoiles) ==> m.etoiles == 5)
  {
    CategorieIsNatPlusStars(RawStars(raw));
    ElementMapShape();
  }

  // ---------------------------------------------------------------------------
  // filterMonsters
  // ---------------------------------------------------------------------------

  /** The optional criteria of `filterMonsters`. */
  datatype Filters = Filters(
    element: Option<string>,
    categorie: Option<string>,
    etoiles: Option<int>,
    search: Option<string>)

  /** The lower-cased term occurs in the lower-cased name, element or category. */
  predicate MatchesSearch(m: Monster, term: string)
  {
    var q := ToLower(term);
    Contains(ToLower(m.nom), q) || Contains(ToLower(m.element), q) || Contains(ToLower(m.categorie), q)
  }

  /** The filter callback: each set criterion can reject; a set search term decides last. */
  predicate Keep(f: Filters, m: Monster)
  {
    if TruthyString(f.element) && m.element != f.element.value then false
    else if TruthyString(f.categorie) && m.categorie != f.categorie.value then false
    else if TruthyNumber(f.etoiles) && m.etoiles != f.etoiles.value then false
    else if TruthyString(f.search) then MatchesSearch(m, f.search.value)
    else true
  }

  function FilterMonsters(monsters: seq<Monster>, f: Filters): seq<Monster>
  {
    Filter((m: Monster) => Keep(f, m), monsters)
  }

  /** A monster is kept exactly when every criterion that is set (present and not empty or
      zero) holds of it; the result keeps the input's order. */
  lemma FilterMonstersIff(monsters: seq<Monster>, f: Filters, m: Monster)
    ensures m in FilterMonsters(monsters, f) <==>
      && m in monsters
      && (TruthyString(f.element) ==> m.element == f.element.value)
      && (TruthyString(f.categorie) ==> m.categorie == f.categorie.value)
      && (TruthyNumber(f.etoiles) ==> m.etoiles == f.etoiles.value)
      && (TruthyString(f.search) ==> MatchesSearch(m, f.search.value))
    ensures IsSubsequence(FilterMonsters(monsters, f), monsters)
  {
    FilterIsSubsequence((m: Monster) => Keep(f, m), monsters);
  }

  /** With no criterion set the filter keeps everything. */
  lemma EmptyFiltersKeepAll(monsters: seq<Monster>, f: Filters)
    requires !TruthyString(f.element) && !TruthyString(f.categorie)
    requires !TruthyNumber(f.etoiles) && !TruthyString(f.search)
    ensures FilterMonsters(monsters, f) == monsters
  {
    FilterAll((m: Monster) => Keep(f, m), monsters);
  }

  // ---------------------------------------------------------------------------
  // findMonsterById and findMonsterByNameAndElement
  // ---------------------------------------------------------------------------

  /** The position of the first monster with the id, or -1. */
  function IndexById(monsters: seq<Monster>, id: int): (k: int)
    ensures -1 <= k < |monsters|
    ensures k == -1 <==> forall i :: 0 <= i < |monsters| ==> monsters[i].id != id
    ensures k >= 0 ==> monsters[k].id == id && forall j :: 0 <= j < k ==> monsters[j].id != id
  {
    if monsters == [] then -1
    else if monsters[0].id == id then 0
    else
      var k := IndexById(monsters[1..], id);
      assert forall i :: 1 <= i < |monsters| ==> monsters[i] == monsters[1..][i - 1];
      if k == -1 then -1 else k + 1
  }

  /** `findMonsterById`: the first monster with the id. */
  function FindMonsterById(monsters: seq<Monster>, id: int): (r: Option<Monster>)
    ensures r.None? <==> forall i :: 0 <= i < |monsters| ==> monsters[i].id != id
    ensures r.Some? ==> (r.value.id == id &&
      exists i :: 0 <= i < |monsters| && monsters[i] == r.value && forall j :: 0 <= j < i ==> monsters[j].id != id)
  {
    var k := IndexById(monsters, id);
    if k == -1 then None else Some(monsters[k])
  }

  /** The name matches ignoring case and the element exactly. */
  predicate SameNameAndElement(m: Monster, nom: string, element: string)
  {
    ToLower(m.nom) == ToLower(nom) && m.element == element
  }

  /** The position of the first monster matching the name and element, or -1. */
  function IndexByNameAndElement(monsters: seq<Monster>, nom: string, element: string): (k: int)
    ensures -1 <= k < |monsters|
    ensures k == -1 <==> forall i :: 0 <= i < |monsters| ==> !SameNameAndElement(monsters[i], nom, element)
    ensures k >= 0 ==> (SameNameAndElement(monsters[k], nom, element) &&
      forall j :: 0 <= j < k ==> !SameNameAndElement(monsters[j], nom, element))
  {
    if monsters == [] then -1
    else if SameNameAndElement(monsters[0], nom, element) then 0
    else
      var k := IndexByNameAndElement(monsters[1..], nom, element);
      assert forall i :: 1 <= i < |monsters| ==> monsters[i] == monsters[1..][i - 1];
      if k == -1 then -1 else k + 1
  }

  /** `findMonsterByNameAndElement`: the first monster whose name matches ignoring case and
      whose element matches exactly. */
  function FindMonsterByNameAndElement(monsters: seq<Monster>, nom: string, element: string): (r: Option<Monster>)
    ensures r.None? <==> forall i :: 0 <= i < |monsters| ==> !SameNameAndElement(monsters[i], nom, element)
    ensures r.Some? ==> (SameNameAndElement(r.value, nom, element) &&
      exists i :: 0 <= i < |monsters| && monsters[i] == r.value &&
        forall j :: 0 <= j < i ==> !SameNameAndElement(monsters[j], nom, element))
  {
    var k := IndexByNameAndElement(monsters, nom, element);
    if k == -1 then None else Some(monsters[k])
  }

  // ---------------------------------------------------------------------------
  // getMonsterStats
  // ---------------------------------------------------------------------------

  datatype Stats = Stats(
    total: nat,
    parElement: map<string, nat>,
    parCategorie: map<string, nat>,
    parEtoiles: map<int, nat>)

  function ElementsOf(monsters: seq<Monster>): (r: seq<string>)
    ensures |r| == |monsters|
  {
    seq(|monsters|, i requires 0 <= i < |monsters| => monsters[i].element)
  }

  function CategoriesOf(monsters: seq<Monster>): (r: seq<string>)
    ensures |r| == |monsters|
  {
    seq(|monsters|, i requires 0 <= i < |monsters| => monsters[i].categorie)
  }

  function StarsOf(monsters: seq<Monster>): (r: seq<int>)
    ensures |r| == |monsters|
  {
    seq(|monsters|, i requires 0 <= i < |monsters| => monsters[i].etoiles)
  }

  /** The statistics: the number of monsters and a count per element, category and stars. */
  function MonsterStats(monsters: seq<Monster>): Stats
  {
    Stats(|monsters|, CountBy(ElementsOf(monsters)), CountBy(CategoriesOf(monsters)), CountBy(StarsOf(monsters)))
  }

  /** One more monster adds one to its element, category and stars. */
  lemma StatsSnoc(monsters: seq<Monster>, m: Monster)
    ensures var s := MonsterStats(monsters);
      MonsterStats(monsters + [m]) ==
        Stats(s.total + 1, AddOne(s.parElement, m.element), AddOne(s.parCategorie, m.categorie),
              AddOne(s.parEtoiles, m.etoiles))
  {
    assert ElementsOf(monsters + [m]) == ElementsOf(monsters) + [m.element];
    assert CategoriesOf(monsters + [m]) == CategoriesOf(monsters) + [m.categorie];
    assert StarsOf(monsters + [m]) == StarsOf(monsters) + [m.etoiles];
    CountBySnoc(ElementsOf(monsters), m.element);
    CountBySnoc(CategoriesOf(monsters), m.categorie);
    CountBySnoc(StarsOf(monsters), m.etoiles);
  }

  /** `getMonsterStats`: one pass that adds one to three counting dictionaries per monster. */
  method GetMonsterStats(monsters: seq<Monster>) returns (stats: Stats)
    ensures stats == MonsterStats(monsters)
  {
    stats := Stats(|monsters|, map[], map[], map[]);
    assert monsters[..0] == [];
    for i := 0 to |monsters|
      invariant stats == MonsterStats(monsters[..i]).(total := |monsters|)
    {
      var m := monsters[i];
      assert monsters[..i + 1] == monsters[..i] + [m];
      StatsSnoc(monsters[..i], m);
      stats := stats.(parElement := AddOne(stats.parElement, m.element),
                      parCategorie := AddOne(stats.parCategorie, m.categorie),
                      parEtoiles := AddOne(stats.parEtoiles, m.etoiles));
    }
    assert monsters[..|monsters|] == monsters;
  }

  /** The counts of each dictionary add up to the total; `StatsCountElement`,
      `StatsCountCategorie` and `StatsCountStars` say what each count is. */
  lemma StatsSumToTotal(monsters: seq<Monster>)
    ensures var s := MonsterStats(monsters);
      && s.total == |monsters|
      && SumValues(s.parElement) == s.total
      && SumValues(s.parCategorie) == s.total
      && SumValues(s.parEtoiles) == s.total
  {
    CountBySum(ElementsOf(monsters));
    CountBySum(CategoriesOf(monsters));
    CountBySum(StarsOf(monsters));
  }

  /** An element is counted exactly when some monster has it, as often as monsters have it. */
  lemma StatsCountElement(monsters: seq<Monster>, e: string)
    ensures e in MonsterStats(monsters).parElement <==> exists i :: 0 <= i < |monsters| && monsters[i].element == e
    ensures e in MonsterStats(monsters).parElement ==>
      MonsterStats(monsters).parElement[e] == Occurrences(ElementsOf(monsters), e)
  {
    var es := ElementsOf(monsters);
    if e in MonsterStats(monsters).parElement {
      CountByOccurrences(es, e);
      var i :| 0 <= i < |es| && es[i] == e;
      assert monsters[i].element == e;
    } else {
      forall i | 0 <= i < |monsters|
        ensures monsters[i].element != e
      {
        assert es[i] == monsters[i].element;
      }
    }
  }
  /** A category is counted exactly when some monster has it, as often as monsters have it. */
  lemma StatsCountCategorie(monsters: seq<Monster>, e: string)
    ensures e in MonsterStats(monsters).parCategorie <==> exists i :: 0 <= i < |monsters| && monsters[i].categorie == e
    ensures e in MonsterStats(monsters).parCategorie ==>
      MonsterStats(monsters).parCategorie[e] == Occurrences(CategoriesOf(monsters), e)
  {
    var es := CategoriesOf(monsters);
    if e in MonsterStats(monsters).parCategorie {
      CountByOccurrences(es, e);
      var i :| 0 <= i < |es| && es[i] == e;
      assert monsters[i].categorie == e;
    } else {
      forall i | 0 <= i < |monsters|
        ensures monsters[i].categorie != e
      {
        assert es[i] == monsters[i].categorie;
      }
    }
  }
  /** A number of stars is counted exactly when some monster has it, as often as monsters have it. */
  lemma StatsCountStars(monsters: seq<Monster>, e: int)
    ensures e in MonsterStats(monsters).parEtoiles <==> exists i :: 0 <= i < |monsters| && monsters[i].etoiles == e
    ensures e in MonsterStats(monsters).parEtoiles ==>
      MonsterStats(monsters).parEtoiles[e] == Occurrences(StarsOf(monsters), e)
  {
    var es := StarsOf(monsters);
    if e in MonsterStats(monsters).parEtoiles {
      CountByOccurrences(es, e);
      var i :| 0 <= i < |es| && es[i] == e;
      assert monsters[i].etoiles == e;
    } else {
      forall i | 0 <= i < |monsters|
        ensures monsters[i].etoiles != e
      {
        assert es[i] == monsters[i].etoiles;
      }
    }
  }
}
