/** The victory-points rank ladder: fourteen ranks from Beginner to Legend, the rank of a
    number of points, the next rank, the least points of a rank and the rank's display text.
    Points are integers. */
module RankUtils {
  import opened Common

  datatype Rank =
    | Beginner
    | Challenger1 | Challenger2 | Challenger3
    | Fighter1 | Fighter2 | Fighter3
    | Conqueror1 | Conqueror2 | Conqueror3
    | Guardian1 | Guardian2 | Guardian3
    | Legend

  /** The ladder from lowest to highest, as `getNextRank` lists it. */
  const Ranks: seq<Rank> := [
    Beginner,
    Challenger1, Challenger2, Challenger3,
    Fighter1, Fighter2, Fighter3,
    Conqueror1, Conqueror2, Conqueror3,
    Guardian1, Guardian2, Guardian3,
    Legend]

  const Star: string := "\U{2605}"

  /** The rank's text: a tier name and one to three stars. */
  function RankName(r: Rank): string
  {
    match r
    case Beginner => "Beginner"
    case Challenger1 => "Challenger " + Star
    case Challenger2 => "Challenger " + Star + Star
    case Challenger3 => "Challenger " + Star + Star + Star
    case Fighter1 => "Fighter " + Star
    case Fighter2 => "Fighter " + Star + Star
    case Fighter3 => "Fighter " + Star + Star + Star
    case Conqueror1 => "Conqueror " + Star
    case Conqueror2 => "Conqueror " + Star + Star
    case Conqueror3 => "Conqueror " + Star + Star + Star
    case Guardian1 => "Guardian " + Star
    case Guardian2 => "Guardian " + Star + Star
    case Guardian3 => "Guardian " + Star + Star + Star
    case Legend => "Legend"
  }

  /** The rank's position on the ladder. */
  function Position(r: Rank): (i: nat)
    ensures i < |Ranks| && Ranks[i] == r
  {
    match r
    case Beginner => 0
    case Challenger1 => 1
    case Challenger2 => 2
    case Challenger3 => 3
    case Fighter1 => 4
    case Fighter2 => 5
    case Fighter3 => 6
    case Conqueror1 => 7
    case Conqueror2 => 8
    case Conqueror3 => 9
    case Guardian1 => 10
    case Guardian2 => 11
    case Guardian3 => 12
    case Legend => 13
  }

  /** `ranks.indexOf(rank)` finds the rank at its position: the ladder lists each rank once. */
  lemma IndexOfRank(r: Rank)
    ensures IndexOf(Ranks, r) == Position(r)
  {
    assert Ranks[Position(r)] == r;
    var k := IndexOf(Ranks, r);
    PositionOfEntry(k);
  }

  /** `victoryPointsToRank`: no rank without points, else the first bracket the points fall
      below, Legend from 3400 on. */
  function VictoryPointsToRank(victoryPoints: Option<int>): (r: Option<Rank>)
    ensures r.None? <==> victoryPoints.None?
  {
    if victoryPoints.None? then None
    else
      var vp := victoryPoints.value;
      if vp < 1000 then Some(Beginner)
      else if vp < 1200 then Some(Challenger1)
      else if vp < 1400 then Some(Challenger2)
      else if vp < 1600 then Some(Challenger3)
      else if vp < 1800 then Some(Fighter1)
      else if vp < 2000 then Some(Fighter2)
      else if vp < 2200 then Some(Fighter3)
      else if vp < 2400 then Some(Conqueror1)
      else if vp < 2600 then Some(Conqueror2)
      else if vp < 2800 then Some(Conqueror3)
      else if vp < 3000 then Some(Guardian1)
      else if vp < 3200 then Some(Guardian2)
      else if vp < 3400 then Some(Guardian3)
      else Some(Legend)
  }

  /** `getNextRank`: Beginner when there is no rank, nothing after Legend, else the next entry
      of the ladder. */
  function GetNextRank(rank: Option<Rank>): Option<Rank>
  {
    if rank.None? then Some(Beginner)
    else
      var currentIndex := IndexOf(Ranks, rank.value);
      if currentIndex == -1 || currentIndex == |Ranks| - 1 then None
      else Some(Ranks[currentIndex + 1])
  }

  /** `getRankMinVP`. */
  function GetRankMinVP(rank: Rank): int
  {
    match rank
    case Beginner => 0
    case Challenger1 => 1000
    case Challenger2 => 1200
    case Challenger3 => 1400
    case Fighter1 => 1600
    case Fighter2 => 1800
    case Fighter3 => 2000
    case Conqueror1 => 2200
    case Conqueror2 => 2400
    case Conqueror3 => 2600
    case Guardian1 => 2800
    case Guardian2 => 3000
    case Guardian3 => 3200
    case Legend => 3400
  }

  const Diamond: string := "\U{1F539}"

  /** `formatRankDisplay`. */
  function FormatRankDisplay(rank: Option<Rank>): string
  {
    if rank.None? then "Non renseigné"
    else Diamond + " " + RankName(rank.value)
  }

  /** The ladder as arithmetic: below 1000 points is Beginner (negative points included), and
      each further 200 points is one position up, to Legend at position 13. */
  lemma RankFormula(vp: int)
    ensures VictoryPointsToRank(Some(vp)) ==
      Some(Ranks[if vp < 1000 then 0 else if vp >= 3400 then 13 else (vp - 1000) / 200 + 1])
  {
  }

  /** The least points of the rank at each position: 0 for Beginner, then 1000 plus 200 per
      position after the first. */
  lemma MinVPFormula(i: nat)
    requires i < |Ranks|
    ensures GetRankMinVP(Ranks[i]) == if i == 0 then 0 else 800 + 200 * i
  {
  }

  /** Converting a rank's least points back gives the rank. */
  lemma RankRoundTrip(r: Rank)
    ensures VictoryPointsToRank(Some(GetRankMinVP(r))) == Some(r)
  {
  }

  /** More points never give a lower rank. */
  lemma RankMonotone(a: int, b: int)
    requires a <= b
    ensures Position(VictoryPointsToRank(Some(a)).value) <= Position(VictoryPointsToRank(Some(b)).value)
  {
    RankFormula(a);
    RankFormula(b);
    var i := if a < 1000 then 0 else if a >= 3400 then 13 else (a - 1000) / 200 + 1;
    var j := if b < 1000 then 0 else if b >= 3400 then 13 else (b - 1000) / 200 + 1;
    assert i <= j;
    PositionOfEntry(i);
    PositionOfEntry(j);
  }

  lemma PositionOfEntry(i: nat)
    requires i < |Ranks|
    ensures Position(Ranks[i]) == i
  {
    assert NoDuplicates(Ranks);
  }

  /** Non-negative points are at least the least points of their rank and, below Legend, less
      than the least points of the next rank. */
  lemma RankBrackets(vp: int)
    requires vp >= 0
    ensures var r := VictoryPointsToRank(Some(vp)).value;
      GetRankMinVP(r) <= vp &&
      (GetNextRank(Some(r)).Some? ==> vp < GetRankMinVP(GetNextRank(Some(r)).value))
  {
    RankFormula(vp);
    var i := if vp < 1000 then 0 else if vp >= 3400 then 13 else (vp - 1000) / 200 + 1;
    var r := Ranks[i];
    PositionOfEntry(i);
    MinVPFormula(i);
    NextRankShape(r);
    if i < 13 {
      MinVPFormula(i + 1);
    }
  }

  /** The next rank of no rank is Beginner, Legend has none, and every other rank is followed by
      the rank one position up. */
  lemma NextRankShape(r: Rank)
    ensures GetNextRank(None) == Some(Beginner)
    ensures GetNextRank(Some(r)).None? <==> r == Legend
    ensures r != Legend ==> GetNextRank(Some(r)) == Some(Ranks[Position(r) + 1])
  {
    LastRank(r);
    IndexOfRank(r);
  }

  /** Only Legend has no next rank. */
  lemma LastRank(r: Rank)
    ensures GetNextRank(Some(r)).None? <==> r == Legend
  {
    IndexOfRank(r);
    if r != Legend {
      assert Position(r) < |Ranks| - 1;
    }
  }

  /** The next rank needs exactly 200 more points, 1000 after Beginner. */
  lemma NextRankGap(r: Rank)
    requires r != Legend
    ensures GetRankMinVP(GetNextRank(Some(r)).value) - GetRankMinVP(r) == if r == Beginner then 1000 else 200
  {
    NextRankShape(r);
    MinVPFormula(Position(r));
    MinVPFormula(Position(r) + 1);
  }

  /** Without a rank the text is "Non renseigné"; with one it is the blue diamond, a space and
      the rank's name, so different ranks display differently. */
  lemma FormatShape(r: Rank, q: Rank)
    ensures FormatRankDisplay(None) == "Non renseigné"
    ensures FormatRankDisplay(Some(r)) == Diamond + " " + RankName(r)
    ensures FormatRankDisplay(Some(r)) != FormatRankDisplay(None)
    ensures r != q ==> FormatRankDisplay(Some(r)) != FormatRankDisplay(Some(q))
  {
    assert FormatRankDisplay(Some(r))[0] == Diamond[0];
    if r != q {
      RankNamesDiffer(r, q);
      var n := |Diamond + " "|;
      assert FormatRankDisplay(Some(r))[n..] == RankName(r);
      assert FormatRankDisplay(Some(q))[n..] == RankName(q);
    }
  }

  lemma RankNamesDiffer(r: Rank, q: Rank)
    requires r != q
    ensures RankName(r) != RankName(q)
  {
    var a := RankName(r);
    var b := RankName(q);
    if |a| == |b| {
      assert a[0] != b[0] || a[|a| - 1] != b[|b| - 1] || a[|a| - 2] != b[|b| - 2] || a[1] != b[1];
    }
  }
}
