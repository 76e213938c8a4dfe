/** The box page: the player's collection of monster ids, which a click toggles, the id fallback
    applied to the catalogue records the page loads, and the page's four filters. */
module BoxPage {
  import opened Common
  import opened Catalogue
  import opened MonstersRoute

  // ---------------------------------------------------------------------------
  // Toggling a monster in the box
  // ---------------------------------------------------------------------------

  /** The box without any occurrence of `id`. */
  function Without(box: seq<int>, id: int): (r: seq<int>)
    ensures forall x :: x in r <==> x in box && x != id
  {
    Filter((x: int) => x != id, box)
  }

  /** `toggleMonster`: a present id is removed, every occurrence of it; an absent one is added at
      the end. */
  function Toggle(prev: seq<int>, id: int): seq<int>
  {
    if id in prev then Without(prev, id) else prev + [id]
  }

  /** After a toggle the id is in the box exactly when it was not before, and every other id is
      in the box exactly when it was. */
  lemma ToggleMembers(prev: seq<int>, id: int, x: int)
    ensures x in Toggle(prev, id) <==> if x == id then id !in prev else x in prev
  {
  }

  /** Adding puts the id at the end and leaves the rest as it was; removing keeps the other ids
      in their order. */
  lemma ToggleShape(prev: seq<int>, id: int)
    ensures id !in prev ==> Toggle(prev, id) == prev + [id]
    ensures id in prev ==> IsSubsequence(Toggle(prev, id), prev) && id !in Toggle(prev, id)
  {
    FilterIsSubsequence((x: int) => x != id, prev);
  }

  /** Removing an id the box does not hold changes nothing. */
  lemma {:induction false} WithoutAbsent(box: seq<int>, id: int)
    requires id !in box
    ensures Without(box, id) == box
  {
    FilterAll((x: int) => x != id, box);
  }

  /** Toggling an absent id twice gives back the box. */
  lemma ToggleTwiceAbsent(prev: seq<int>, id: int)
    requires id !in prev
    ensures Toggle(Toggle(prev, id), id) == prev
  {
    FilterAppend((x: int) => x != id, prev, [id]);
    WithoutAbsent(prev, id);
    assert Filter((x: int) => x != id, [id]) == [];
  }

  /** Toggling a present id twice removes its duplicates and moves it to the end. */
  lemma ToggleTwicePresent(prev: seq<int>, id: int)
    requires id in prev
    ensures Toggle(Toggle(prev, id), id) == Without(prev, id) + [id]
  {
  }

  /** A toggle never reorders the other ids: without `id`, the box is the same before and
      after. */
  lemma ToggleKeepsOthers(prev: seq<int>, id: int)
    ensures Without(Toggle(prev, id), id) == Without(prev, id)
  {
    if id in prev {
      WithoutAbsent(Without(prev, id), id);
    } else {
      FilterAppend((x: int) => x != id, prev, [id]);
      assert Filter((x: int) => x != id, [id]) == [];
    }
  }

  // ---------------------------------------------------------------------------
  // Loading the catalogue
  // ---------------------------------------------------------------------------

  /** `monster.id || index + 1`: a zero id is replaced by the position plus one. */
  function WithIds(monsters: seq<Monster>): (r: seq<Monster>)
    ensures |r| == |monsters|
  {
    seq(|monsters|, i requires 0 <= i < |monsters| =>
      monsters[i].(id := if monsters[i].id != 0 then monsters[i].id else i + 1))
  }

  /** Every record gets a non-zero id, only the id changes, and a non-zero id is kept. */
  lemma WithIdsShape(monsters: seq<Monster>)
    ensures forall i :: 0 <= i < |monsters| ==>
      && WithIds(monsters)[i].id != 0
      && WithIds(monsters)[i] == monsters[i].(id := WithIds(monsters)[i].id)
      && (monsters[i].id != 0 ==> WithIds(monsters)[i] == monsters[i])
  {
  }

  /** The records the monsters route answers with already have non-zero ids, so the fallback
      changes none of them. */
  lemma RouteRecordsKeepIds(raw: RawCatalogue)
    ensures WithIds(RouteMonsters(raw)) == RouteMonsters(raw)
  {
    RouteMonstersShape(raw);
    var ms := RouteMonsters(raw);
    forall i | 0 <= i < |ms| ensures ms[i].id != 0 {
      var r := RawItems(raw)[i];
      assert ms[i].id == (if TruthyNumber(r.id) then r.id.value else i + 1);
    }
  }

  // ---------------------------------------------------------------------------
  // Filtering the catalogue
  // ---------------------------------------------------------------------------

  /** The stars selector: "all" or one number of stars. */
  datatype StarsChoice = AllStars | Stars(n: int)

  /** The four predicates of `filteredMonsters`. */
  predicate Shown(m: Monster, search: string, element: string, categorie: string, etoiles: StarsChoice)
  {
    && (search == "" || Contains(ToLower(m.nom), ToLower(search)))
    && (element == "all" || m.element == element)
    && (categorie == "all" || m.categorie == categorie)
    && (etoiles.AllStars? || m.etoiles == etoiles.n)
  }

  /** `filteredMonsters`. */
  function FilteredMonsters(monsters: seq<Monster>, search: string, element: string,
                            categorie: string, etoiles: StarsChoice): seq<Monster>
  {
    Filter((m: Monster) => Shown(m, search, element, categorie, etoiles), monsters)
  }

  /** A monster is shown exactly when it is loaded and passes all four predicates; the shown
      monsters keep the catalogue's order. */
  lemma FilteredMonstersIff(monsters: seq<Monster>, search: string, element: string,
                            categorie: string, etoiles: StarsChoice, m: Monster)
    ensures m in FilteredMonsters(monsters, search, element, categorie, etoiles) <==>
      && m in monsters
      && (search == "" || Contains(ToLower(m.nom), ToLower(search)))
      && (element == "all" || m.element == element)
      && (categorie == "all" || m.categorie == categorie)
      && (etoiles.AllStars? || m.etoiles == etoiles.n)
    ensures IsSubsequence(FilteredMonsters(monsters, search, element, categorie, etoiles), monsters)
  {
    FilterIsSubsequence((m: Monster) => Shown(m, search, element, categorie, etoiles), monsters);
  }

  /** With an empty search and every selector on "all", the whole catalogue is shown. */
  lemma NoFilterShowsAll(monsters: seq<Monster>)
    ensures FilteredMonsters(monsters, "", "all", "all", AllStars) == monsters
  {
    FilterAll((m: Monster) => Shown(m, "", "all", "all", AllStars), monsters);
  }
}
