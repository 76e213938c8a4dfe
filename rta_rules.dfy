/** The rules of the ranked draft: the snake pick order of six rounds, the turn lookup, the
    duplicate check and the validation of a whole draft state. Monster ids are integers. */
module RtaRules {
  import opened Common

  datatype Player = A | B

  /** One round of the pick order: a player and how many monsters they pick in it. */
  datatype Round = Round(player: Player, picks: nat)

  datatype DraftPhase = Picking | Banning | Completed

  const PicksPerPlayer: nat := 5

  /** A 1, B 2, A 2, B 2, A 2, B 1. */
  const PickOrder: seq<Round> :=
    [Round(A, 1), Round(B, 2), Round(A, 2), Round(B, 2), Round(A, 2), Round(B, 1)]

  function Other(p: Player): Player
  {
    if p == A then B else A
  }

  /** Picks of `p` over `rounds`. */
  function PicksOf(rounds: seq<Round>, p: Player): nat
  {
    if rounds == [] then 0
    else (if rounds[0].player == p then rounds[0].picks else 0) + PicksOf(rounds[1..], p)
  }

  /** Picks of both players over `rounds`. */
  function TotalPicks(rounds: seq<Round>): nat
  {
    if rounds == [] then 0 else rounds[0].picks + TotalPicks(rounds[1..])
  }

  /** The order has six rounds that alternate between the players, starting with A, and each
      player picks five monsters in all. */
  lemma PickOrderShape()
    ensures |PickOrder| == 6
    ensures PickOrder[0].player == A
    ensures forall i :: 0 < i < |PickOrder| ==> PickOrder[i].player == Other(PickOrder[i - 1].player)
    ensures PicksOf(PickOrder, A) == PicksPerPlayer && PicksOf(PickOrder, B) == PicksPerPlayer
    ensures TotalPicks(PickOrder) == 2 * PicksPerPlayer
  {
  }

  // ---------------------------------------------------------------------------
  // isValidPickOrder
  // ---------------------------------------------------------------------------

  /** An entry of a pick order given to `isValidPickOrder`; counts are arbitrary numbers. */
  datatype OrderEntry = OrderEntry(player: Player, count: int)

  /** `filter(player).reduce(sum of count)`. */
  function CountOf(entries: seq<OrderEntry>, p: Player): int
  {
    if entries == [] then 0
    else (if entries[0].player == p then entries[0].count else 0) + CountOf(entries[1..], p)
  }

  /** Both players' counts sum to five, over exactly six entries. */
  predicate IsValidPickOrder(entries: seq<OrderEntry>)
  {
    CountOf(entries, A) == 5 && CountOf(entries, B) == 5 && |entries| == 6
  }

  function AsEntries(rounds: seq<Round>): (r: seq<OrderEntry>)
    ensures |r| == |rounds|
  {
    seq(|rounds|, i requires 0 <= i < |rounds| => OrderEntry(rounds[i].player, rounds[i].picks))
  }

  lemma {:induction false} CountOfRounds(rounds: seq<Round>, p: Player)
    ensures CountOf(AsEntries(rounds), p) == PicksOf(rounds, p)
  {
    if rounds != [] {
      CountOfRounds(rounds[1..], p);
      assert AsEntries(rounds)[1..] == AsEntries(rounds[1..]);
    }
  }

  /** The official order and its mirror for a first-picking B are both valid. */
  lemma PickOrderIsValid()
    ensures IsValidPickOrder(AsEntries(PickOrder))
    ensures IsValidPickOrder(AsEntries(Adjusted(PickOrder, B)))
  {
    CountOfRounds(PickOrder, A);
    CountOfRounds(PickOrder, B);
    CountOfRounds(Adjusted(PickOrder, B), A);
    CountOfRounds(Adjusted(PickOrder, B), B);
    SwappedPicks(PickOrder, A);
    SwappedPicks(PickOrder, B);
  }

  /** Swapping the players of a valid order keeps it valid: the counts trade places. */
  lemma {:induction false} SwappedCounts(entries: seq<OrderEntry>, p: Player)
    ensures CountOf(seq(|entries|, i requires 0 <= i < |entries| => OrderEntry(Other(entries[i].player), entries[i].count)), p)
         == CountOf(entries, Other(p))
  {
    if entries != [] {
      var sw := seq(|entries|, i requires 0 <= i < |entries| => OrderEntry(Other(entries[i].player), entries[i].count));
      var rest := entries[1..];
      SwappedCounts(rest, p);
      assert sw[1..] == seq(|rest|, i requires 0 <= i < |rest| => OrderEntry(Other(rest[i].player), rest[i].count));
    }
  }

  // ---------------------------------------------------------------------------
  // getCurrentTurnInfo
  // ---------------------------------------------------------------------------

  /** The order with the players swapped when B picks first. */
  function Adjusted(order: seq<Round>, firstPlayer: Player): (r: seq<Round>)
    ensures |r| == |order|
  {
    if firstPlayer == B then seq(|order|, i requires 0 <= i < |order| => Round(Other(order[i].player), order[i].picks))
    else order
  }

  lemma {:induction false} SwappedPicks(rounds: seq<Round>, p: Player)
    ensures PicksOf(Adjusted(rounds, B), p) == PicksOf(rounds, Other(p))
    ensures TotalPicks(Adjusted(rounds, B)) == TotalPicks(rounds)
  {
    if rounds != [] {
      SwappedPicks(rounds[1..], p);
      assert Adjusted(rounds, B)[1..] == Adjusted(rounds[1..], B);
    }
  }

  datatype TurnInfo = TurnInfo(turn: int, currentPlayer: Player, picksRemaining: int)

  /** The round at `index`: its number, its player, and five minus the picks of both players
      counted through that round when it belongs to the first player, before it otherwise. */
  function GetCurrentTurnInfo(index: int, firstPlayer: Player): Option<TurnInfo>
  {
    if index < 0 || index >= |PickOrder| then None
    else
      var order := Adjusted(PickOrder, firstPlayer);
      var round := order[index];
      var totalPicked := TotalPicks(order[..index]);
      var totalToPick := TotalPicks(order[..index + 1]);
      Some(TurnInfo(index + 1, round.player,
                    PicksPerPlayer as int - (if firstPlayer == round.player then totalToPick else totalPicked)))
  }

  /** The lookup fails exactly outside the six rounds; otherwise the turn is the index plus
      one and the player is the round's, swapped when B picks first. */
  lemma TurnInfoShape(index: int, firstPlayer: Player)
    ensures GetCurrentTurnInfo(index, firstPlayer).None? <==> index < 0 || index >= 6
    ensures GetCurrentTurnInfo(index, firstPlayer).Some? ==>
      var t := GetCurrentTurnInfo(index, firstPlayer).value;
      t.turn == index + 1 &&
      t.currentPlayer == (if firstPlayer == A then PickOrder[index].player else Other(PickOrder[index].player))
  {
  }

  lemma {:induction false} TotalPicksSnoc(rounds: seq<Round>, r: Round)
    ensures TotalPicks(rounds + [r]) == TotalPicks(rounds) + r.picks
  {
    if rounds != [] {
      assert (rounds + [r])[1..] == rounds[1..] + [r];
      TotalPicksSnoc(rounds[1..], r);
    }
  }

  /** The picks left, by round, are 4, 4, 0, 0, -4, -4 whoever picks first: from the third
      round on the formula no longer counts one player's picks. */
  lemma PicksRemainingTable(firstPlayer: Player)
    ensures GetCurrentTurnInfo(0, firstPlayer).value.picksRemaining == 4
    ensures GetCurrentTurnInfo(1, firstPlayer).value.picksRemaining == 4
    ensures GetCurrentTurnInfo(2, firstPlayer).value.picksRemaining == 0
    ensures GetCurrentTurnInfo(3, firstPlayer).value.picksRemaining == 0
    ensures GetCurrentTurnInfo(4, firstPlayer).value.picksRemaining == -4
    ensures GetCurrentTurnInfo(5, firstPlayer).value.picksRemaining == -4
  {
    var order := Adjusted(PickOrder, firstPlayer);
    assert order[..0] == [];
    PrefixStep(order, 0);
    PrefixStep(order, 1);
    PrefixStep(order, 2);
    PrefixStep(order, 3);
    PrefixStep(order, 4);
  }

  lemma PrefixStep(order: seq<Round>, k: nat)
    requires k < |order|
    ensures TotalPicks(order[..k + 1]) == TotalPicks(order[..k]) + order[k].picks
  {
    assert order[..k + 1] == order[..k] + [order[k]];
    TotalPicksSnoc(order[..k], order[k]);
  }

  // ---------------------------------------------------------------------------
  // canPickMonster and validateDraftState
  // ---------------------------------------------------------------------------

  /** The monster is on neither team. */
  predicate CanPickMonster(id: int, picksA: seq<int>, picksB: seq<int>)
  {
    id !in picksA && id !in picksB
  }

  /** A draft as `validateDraftState` sees it; a missing ban list is `None`. */
  datatype DraftSnapshot = DraftSnapshot(
    picksA: seq<int>,
    picksB: seq<int>,
    bansA: Option<seq<int>>,
    bansB: Option<seq<int>>,
    phase: DraftPhase)

  datatype ValidationError =
    | TooManyPicksA
    | TooManyPicksB
    | SharedPicks
    | TooManyBansA
    | TooManyBansB
    | BanOutsideB   // A banned a monster B did not pick
    | BanOutsideA   // B banned a monster A did not pick

  /** A ban list is given and some entry of it is not in `picks`. */
  predicate SomeBanOutside(bans: Option<seq<int>>, picks: seq<int>)
  {
    bans.Some? && exists i :: 0 <= i < |bans.value| && bans.value[i] !in picks
  }

  /** The picks of A that B also picked, in A's order. */
  function Duplicates(picksA: seq<int>, picksB: seq<int>): seq<int>
  {
    Filter((pick: int) => pick in picksB, picksA)
  }

  /** `errors` with `e` pushed when the check `failed`. */
  function PushIf(errors: seq<ValidationError>, failed: bool, e: ValidationError): (r: seq<ValidationError>)
    ensures forall x :: x in r <==> x in errors || (failed && x == e)
    ensures NoDuplicates(errors) && e !in errors ==> NoDuplicates(r)
  {
    if failed then errors + [e] else errors
  }

  /** The checks run in every phase: team sizes and monsters on both teams. */
  function PickErrors(s: DraftSnapshot): seq<ValidationError>
  {
    var e0 := PushIf([], |s.picksA| > 5, TooManyPicksA);
    var e1 := PushIf(e0, |s.picksB| > 5, TooManyPicksB);
    PushIf(e1, |Duplicates(s.picksA, s.picksB)| > 0, SharedPicks)
  }

  /** The checks run from the ban phase on, pushed after `errors`: ban counts, then banned
      monsters. */
  function BanErrors(s: DraftSnapshot, errors: seq<ValidationError>): seq<ValidationError>
  {
    if s.phase == Picking then errors
    else
      var e0 := PushIf(errors, s.bansA.Some? && |s.bansA.value| > 1, TooManyBansA);
      var e1 := PushIf(e0, s.bansB.Some? && |s.bansB.value| > 1, TooManyBansB);
      var e2 := PushIf(e1, SomeBanOutside(s.bansA, s.picksB), BanOutsideB);
      PushIf(e2, SomeBanOutside(s.bansB, s.picksA), BanOutsideA)
  }

  /** The errors `validateDraftState` reports, in the order it pushes them. */
  function ValidationErrors(s: DraftSnapshot): seq<ValidationError>
  {
    BanErrors(s, PickErrors(s))
  }

  /** `validateDraftState`: the errors pushed one check after the other, and the verdict. */
  method ValidateDraftState(s: DraftSnapshot) returns (valid: bool, errors: seq<ValidationError>)
    ensures errors == ValidationErrors(s)
    ensures valid <==> errors == []
  {
    errors := [];
    if |s.picksA| > 5 {
      errors := errors + [TooManyPicksA];
    }
    if |s.picksB| > 5 {
      errors := errors + [TooManyPicksB];
    }
    var duplicates := Duplicates(s.picksA, s.picksB);
    if |duplicates| > 0 {
      errors := errors + [SharedPicks];
    }
    if s.phase == Banning || s.phase == Completed {
      if s.bansA.Some? && |s.bansA.value| > 1 {
        errors := errors + [TooManyBansA];
      }
      if s.bansB.Some? && |s.bansB.value| > 1 {
        errors := errors + [TooManyBansB];
      }
      if SomeBanOutside(s.bansA, s.picksB) {
        errors := errors + [BanOutsideB];
      }
      if SomeBanOutside(s.bansB, s.picksA) {
        errors := errors + [BanOutsideA];
      }
    }
    valid := |errors| == 0;
  }

  /** The teams are disjoint exactly when no pick of A is in B's list. */
  lemma SharedPicksIff(picksA: seq<int>, picksB: seq<int>)
    ensures |Duplicates(picksA, picksB)| > 0 <==> exists i :: 0 <= i < |picksA| && picksA[i] in picksB
  {
    var d := Duplicates(picksA, picksB);
    if |d| > 0 {
      assert d[0] in picksA;
    }
  }

  /** A state is valid exactly when both teams have at most five picks and share no monster
      and, once bans are open, each side has at most one ban and bans only the other side's
      picks. Picks and duplicates are checked in every phase; bans only from the ban phase on. */
  lemma ValidIff(s: DraftSnapshot)
    ensures ValidationErrors(s) == [] <==>
      && |s.picksA| <= 5 && |s.picksB| <= 5
      && (forall i :: 0 <= i < |s.picksA| ==> s.picksA[i] !in s.picksB)
      && (s.phase != Picking ==>
            && (s.bansA.Some? ==> |s.bansA.value| <= 1 && forall i :: 0 <= i < |s.bansA.value| ==> s.bansA.value[i] in s.picksB)
            && (s.bansB.Some? ==> |s.bansB.value| <= 1 && forall i :: 0 <= i < |s.bansB.value| ==> s.bansB.value[i] in s.picksA))
  {
    SharedPicksIff(s.picksA, s.picksB);
  }

  lemma PickErrorsIff(s: DraftSnapshot)
    ensures TooManyPicksA in PickErrors(s) <==> |s.picksA| > 5
    ensures TooManyPicksB in PickErrors(s) <==> |s.picksB| > 5
    ensures SharedPicks in PickErrors(s) <==> |Duplicates(s.picksA, s.picksB)| > 0
    ensures forall x :: x in PickErrors(s) ==> x == TooManyPicksA || x == TooManyPicksB || x == SharedPicks
    ensures NoDuplicates(PickErrors(s))
  {
  }

  lemma BanErrorsIff(s: DraftSnapshot, errors: seq<ValidationError>)
    requires forall x :: x in errors ==> x == TooManyPicksA || x == TooManyPicksB || x == SharedPicks
    requires NoDuplicates(errors)
    ensures TooManyBansA in BanErrors(s, errors) <==> s.phase != Picking && s.bansA.Some? && |s.bansA.value| > 1
    ensures TooManyBansB in BanErrors(s, errors) <==> s.phase != Picking && s.bansB.Some? && |s.bansB.value| > 1
    ensures BanOutsideB in BanErrors(s, errors) <==> s.phase != Picking && SomeBanOutside(s.bansA, s.picksB)
    ensures BanOutsideA in BanErrors(s, errors) <==> s.phase != Picking && SomeBanOutside(s.bansB, s.picksA)
    ensures forall x :: x in errors ==> x in BanErrors(s, errors)
    ensures forall x :: x in BanErrors(s, errors) && (x == TooManyPicksA || x == TooManyPicksB || x == SharedPicks) ==> x in errors
    ensures NoDuplicates(BanErrors(s, errors))
  {
  }

  /** Each error is reported exactly when its own check fails, and at most once. */
  lemma ErrorReportedIff(s: DraftSnapshot)
    ensures TooManyPicksA in ValidationErrors(s) <==> |s.picksA| > 5
    ensures TooManyPicksB in ValidationErrors(s) <==> |s.picksB| > 5
    ensures SharedPicks in ValidationErrors(s) <==> exists i :: 0 <= i < |s.picksA| && s.picksA[i] in s.picksB
    ensures TooManyBansA in ValidationErrors(s) <==> s.phase != Picking && s.bansA.Some? && |s.bansA.value| > 1
    ensures TooManyBansB in ValidationErrors(s) <==> s.phase != Picking && s.bansB.Some? && |s.bansB.value| > 1
    ensures BanOutsideB in ValidationErrors(s) <==> s.phase != Picking && SomeBanOutside(s.bansA, s.picksB)
    ensures BanOutsideA in ValidationErrors(s) <==> s.phase != Picking && SomeBanOutside(s.bansB, s.picksA)
    ensures NoDuplicates(ValidationErrors(s))
  {
    PickErrorsIff(s);
    BanErrorsIff(s, PickErrors(s));
    SharedPicksIff(s.picksA, s.picksB);
  }

  /** In the pick phase the ban lists are never looked at. */
  lemma PickPhaseIgnoresBans(s: DraftSnapshot, bansA: Option<seq<int>>, bansB: Option<seq<int>>)
    requires s.phase == Picking
    ensures ValidationErrors(s) == ValidationErrors(s.(bansA := bansA, bansB := bansB))
  {
  }
}
