/** The conversion script: it turns the raw catalogue into the application's format and counts
    the converted monsters by element and by category. Unlike the loader it keeps ids as they
    are, translates only capitalised English element names and builds remote image URLs. */
module ConvertMonsters {
  import opened Common
  import opened Catalogue

  /** Capitalised English element names to French. */
  const ScriptElementMap: map<string, string> :=
    map["Fire" := "Feu", "Water" := "Eau", "Wind" := "Vent", "Light" := "Lumière", "Dark" := "Ténèbres"]

  const ImageBase: string := "https://swarfarm.com/static/herders/images/monsters/"

  /** A converted record; the id and the element may be missing, as in the raw record. */
  datatype Converted = Converted(
    id: Option<int>,
    nom: string,
    element: Option<string>,
    etoiles: int,
    categorie: string,
    imageUrl: Option<string>,
    slug: Option<string>,
    archetype: Option<string>,
    isAwakened: Option<bool>)

  /** `elementMap[element] || element`. */
  function ScriptElement(element: Option<string>): Option<string>
  {
    if element.Some? && element.value in ScriptElementMap then Some(ScriptElementMap[element.value]) else element
  }

  /** `getImageUrl`: nothing for a missing or empty name, else the remote address. */
  function ScriptImageUrl(imageFilename: Option<string>): Option<string>
  {
    if !TruthyString(imageFilename) then None else Some(ImageBase + imageFilename.value)
  }

  /** The converted record. */
  function Convert(raw: RawMonster): Converted
  {
    var n := OrString(raw.name, raw.slug);
    var s := OrNumber(raw.natural_stars, raw.naturalStars);
    var etoiles := if TruthyNumber(s) then s.value else 5;
    Converted(raw.id, if TruthyString(n) then n.value else "Unknown", ScriptElement(raw.element),
              etoiles, GetCategorie(etoiles), ScriptImageUrl(raw.image_filename),
              raw.slug, raw.archetype, raw.is_awakened)
  }

  function ConvertAll(raws: seq<RawMonster>): (r: seq<Converted>)
    ensures |r| == |raws|
  {
    seq(|raws|, i requires 0 <= i < |raws| => Convert(raws[i]))
  }

  /** The id is kept as it is; the name falls back to the slug, then "Unknown" (the `nom` key
      is not read); only a capitalised English element is translated, anything else, missing
      included, is kept; the stars fall back to 5 (the `etoiles` key is not read); the
      category follows the stars; an image URL exists exactly for a non-empty file name. */
  lemma ConvertShape(raw: RawMonster)
    ensures var c := Convert(raw);
      && c.id == raw.id
      && c.nom != ""
      && (TruthyString(raw.name) ==> c.nom == raw.name.value)
      && (raw.element.Some? && raw.element.value in ScriptElementMap ==> c.element.Some? && c.element.value in FrenchElements)
      && (raw.element.None? || raw.element.value !in ScriptElementMap ==> c.element == raw.element)
      && c.etoiles != 0
      && (!TruthyNumber(raw.natural_stars) && !TruthyNumber(raw.naturalStars) ==> c.etoiles == 5)
      && c.categorie == "Nat" + IntToString(c.etoiles)
      && (c.imageUrl.Some? <==> TruthyString(raw.image_filename))
      && (c.imageUrl.Some? ==> StartsWith(c.imageUrl.value, ImageBase))
  {
    CategorieIsNatPlusStars(Convert(raw).etoiles);
  }

  /** The script translates a subset of the loader's element names, missing exactly the five
      lower-case English ones. */
  lemma ScriptMissesLowerCase()
    ensures ScriptElementMap.Keys <= ElementMap.Keys
    ensures ElementMap.Keys - ScriptElementMap.Keys == {"fire", "water", "wind", "light", "dark"}
  {
    var upper := {"Fire", "Water", "Wind", "Light", "Dark"};
    var lower := {"fire", "water", "wind", "light", "dark"};
    assert ScriptElementMap.Keys == upper;
    assert ElementMap.Keys == upper + lower;
    assert upper !! lower;
  }

  /** A lower-case English name is left as it is by the script and translated to French by
      the loader. */
  lemma LowerCaseElementsKept(raw: RawMonster)
    requires raw.element.Some? && raw.element.value in ElementMap && raw.element.value !in ScriptElementMap
    ensures Convert(raw).element == raw.element
    ensures RawElement(raw) in FrenchElements && RawElement(raw) != raw.element.value
  {
    ElementMapShape();
  }

  /** On the capitalised names the script and the loader agree. */
  lemma CapitalisedElementsAgree(raw: RawMonster)
    requires raw.element.Some? && raw.element.value in ScriptElementMap
    ensures Convert(raw).element == Some(RawElement(raw))
  {
  }

  // ---------------------------------------------------------------------------
  // Statistics
  // ---------------------------------------------------------------------------

  /** The dictionary key an element is counted under: a missing element is counted under the
      text "undefined". */
  function ElementKey(element: Option<string>): string
  {
    if element.None? then "undefined" else element.value
  }

  datatype ScriptStats = ScriptStats(total: nat, parElement: map<string, nat>, parCategorie: map<string, nat>)

  function ElementKeys(monsters: seq<Converted>): (r: seq<string>)
    ensures |r| == |monsters|
  {
    seq(|monsters|, i requires 0 <= i < |monsters| => ElementKey(monsters[i].element))
  }

  function CategoryKeys(monsters: seq<Converted>): (r: seq<string>)
    ensures |r| == |monsters|
  {
    seq(|monsters|, i requires 0 <= i < |monsters| => monsters[i].categorie)
  }

  function ConvertedStats(monsters: seq<Converted>): ScriptStats
  {
    ScriptStats(|monsters|, CountBy(ElementKeys(monsters)), CountBy(CategoryKeys(monsters)))
  }

  lemma ScriptStatsSnoc(monsters: seq<Converted>, m: Converted)
    ensures var s := ConvertedStats(monsters);
      ConvertedStats(monsters + [m]) ==
        ScriptStats(s.total + 1, AddOne(s.parElement, ElementKey(m.element)), AddOne(s.parCategorie, m.categorie))
  {
    assert ElementKeys(monsters + [m]) == ElementKeys(monsters) + [ElementKey(m.element)];
    assert CategoryKeys(monsters + [m]) == CategoryKeys(monsters) + [m.categorie];
    CountBySnoc(ElementKeys(monsters), ElementKey(m.element));
    CountBySnoc(CategoryKeys(monsters), m.categorie);
  }

  /** The script's statistics loop: one pass over the converted monsters. */
  method CountConverted(monsters: seq<Converted>) returns (stats: ScriptStats)
    ensures stats == ConvertedStats(monsters)
  {
    stats := ScriptStats(|monsters|, map[], map[]);
    assert monsters[..0] == [];
    for i := 0 to |monsters|
      invariant stats == ConvertedStats(monsters[..i]).(total := |monsters|)
    {
      var m := monsters[i];
      assert monsters[..i + 1] == monsters[..i] + [m];
      ScriptStatsSnoc(monsters[..i], m);
      stats := stats.(parElement := AddOne(stats.parElement, ElementKey(m.element)),
                      parCategorie := AddOne(stats.parCategorie, m.categorie));
    }
    assert monsters[..|monsters|] == monsters;
  }

  /** The counts per element and per category each add up to the number of converted
      monsters. */
  lemma ScriptStatsSum(raws: seq<RawMonster>)
    ensures var s := ConvertedStats(ConvertAll(raws));
      s.total == |raws| && SumValues(s.parElement) == |raws| && SumValues(s.parCategorie) == |raws|
  {
    CountBySum(ElementKeys(ConvertAll(raws)));
    CountBySum(CategoryKeys(ConvertAll(raws)));
  }
}
