/** The monsters API route: it reads the raw catalogue file and maps each raw record to the
    record the pages use. The mapping is the catalogue loader's, except for the image URL,
    which the route turns into a local path unless it is already an absolute address. */
module MonstersRoute {
  import opened Common
  import opened Catalogue

  /** `getImageUrl`: nothing for a missing or empty name, an `http` address unchanged, else the
      file under `/images/`. */
  function GetImageUrl(imageFilename: Option<string>): Option<string>
  {
    if !TruthyString(imageFilename) then None
    else if StartsWith(imageFilename.value, "http") then imageFilename
    else Some("/images/" + imageFilename.value)
  }

  /** The image URL is present exactly when a file name is given; it keeps an `http` address
      and otherwise ends with the file name after the `/images/` prefix. */
  lemma GetImageUrlShape(imageFilename: Option<string>)
    ensures GetImageUrl(imageFilename).None? <==> !TruthyString(imageFilename)
    ensures TruthyString(imageFilename) && StartsWith(imageFilename.value, "http") ==>
      GetImageUrl(imageFilename) == imageFilename
    ensures TruthyString(imageFilename) && !StartsWith(imageFilename.value, "http") ==>
      var url := GetImageUrl(imageFilename).value;
      StartsWith(url, "/images/") && url[|"/images/"|..] == imageFilename.value
  {
  }

  /** The record the route returns for the raw record at `index`. */
  function ApiRecord(raw: RawMonster, index: nat): Monster
  {
    var etoiles := RawStars(raw);
    Monster(RawId(raw, index), RawName(raw), RawElement(raw), etoiles, GetCategorie(etoiles),
            GetImageUrl(OrString(raw.image_filename, raw.imageUrl)), raw.slug, raw.archetype,
            OrBool(raw.is_awakened, raw.isAwakened))
  }

  /** The route's record is the loader's record with the image URL rewritten. */
  lemma ApiRecordIsNormalized(raw: RawMonster, index: nat)
    ensures ApiRecord(raw, index) == Normalize(raw, index).(imageUrl := GetImageUrl(Normalize(raw, index).imageUrl))
  {
  }

  /** The records of the response: one per raw record, in order. */
  function RouteMonsters(raw: RawCatalogue): seq<Monster>
  {
    var items := RawItems(raw);
    seq(|items|, i requires 0 <= i < |items| => ApiRecord(items[i], i))
  }

  /** One record per raw record, in the same order; a missing or zero id becomes the position
      plus one, a missing element "Vent", missing stars 5, and the category follows the
      stars. */
  lemma RouteMonstersShape(raw: RawCatalogue)
    ensures |RouteMonsters(raw)| == |RawItems(raw)|
    ensures forall i :: 0 <= i < |RouteMonsters(raw)| ==>
      var m := RouteMonsters(raw)[i];
      var r := RawItems(raw)[i];
      && m.id == (if TruthyNumber(r.id) then r.id.value else i + 1)
      && m.nom != ""
      && m.categorie == "Nat" + IntToString(m.etoiles)
      && (!TruthyString(r.element) ==> m.element == "Vent")
  {
    forall i | 0 <= i < |RouteMonsters(raw)|
      ensures var m := RouteMonsters(raw)[i];
        var r := RawItems(raw)[i];
        && m.id == (if TruthyNumber(r.id) then r.id.value else i + 1)
        && m.nom != ""
        && m.categorie == "Nat" + IntToString(m.etoiles)
        && (!TruthyString(r.element) ==> m.element == "Vent")
    {
      NormalizeShape(RawItems(raw)[i], i);
      ApiRecordIsNormalized(RawItems(raw)[i], i);
    }
  }

  /** What reading the catalogue file gave. */
  datatype FileRead = NotFound | Content(text: string)

  /** The route's answer: an HTTP status, the records, and an error message on failure. */
  datatype Response = Response(status: int, monstres: seq<Monster>, error: Option<string>)

  /** `GET`: a missing or empty file and a file that does not parse are errors with no
      records; otherwise the mapped records. `parse` stands for the JSON parser. */
  function Get(read: FileRead, parse: string -> Option<RawCatalogue>): (r: Response)
    ensures r.status == 200 <==> read.Content? && read.text != "" && parse(read.text).Some?
    ensures r.status == 200 ==> r.monstres == RouteMonsters(parse(read.text).value) && r.error.None?
    ensures r.status != 200 ==> r.status == 500 && r.monstres == [] && r.error.Some?
  {
    if read.NotFound? || read.text == "" then
      Response(500, [], Some("Impossible de trouver monsters_rta.json"))
    else
      match parse(read.text)
      case None => Response(500, [], Some("Erreur lors du traitement de monsters_rta.json"))
      case Some(raw) => Response(200, RouteMonsters(raw), None)
  }
}
