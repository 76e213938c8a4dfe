/** The draft simulator page: the pick order adjusted to the first player, the turn the draft
    is in, the pick and ban transitions, the lists of monsters still available and the teams
    left after the bans. */
module DraftPage {
  import opened Common
  import opened RtaRules
  import opened Catalogue

  /** The page's draft state. `currentTurn` is part of the state but no handler updates it. */
  datatype DraftState = DraftState(
    picksA: seq<int>,
    picksB: seq<int>,
    bansA: seq<int>,
    bansB: seq<int>,
    phase: DraftPhase,
    currentTurn: int,
    firstPlayer: Player)

  const InitialState := DraftState([], [], [], [], Picking, 0, A)

  /** Picks of `p` in the state. */
  function PicksOfPlayer(s: DraftState, p: Player): seq<int>
  {
    if p == A then s.picksA else s.picksB
  }

  function TotalMade(s: DraftState): nat
  {
    |s.picksA| + |s.picksB|
  }

  // ---------------------------------------------------------------------------
  // adjustedPickOrder
  // ---------------------------------------------------------------------------

  /** The page swaps the players of the official order exactly when B picks first; the
      number of picks of every round is kept. */
  lemma AdjustedPickOrderShape(firstPlayer: Player)
    ensures |Adjusted(PickOrder, firstPlayer)| == 6
    ensures forall i :: 0 <= i < 6 ==>
      Adjusted(PickOrder, firstPlayer)[i].picks == PickOrder[i].picks &&
      Adjusted(PickOrder, firstPlayer)[i].player ==
        (if firstPlayer == B then Other(PickOrder[i].player) else PickOrder[i].player)
    ensures Adjusted(PickOrder, firstPlayer)[0].player == firstPlayer
    ensures PicksOf(Adjusted(PickOrder, firstPlayer), A) == 5 && PicksOf(Adjusted(PickOrder, firstPlayer), B) == 5
    ensures TotalPicks(Adjusted(PickOrder, firstPlayer)) == 10
  {
    PickOrderShape();
    SwappedPicks(PickOrder, A);
    SwappedPicks(PickOrder, B);
  }

  // ---------------------------------------------------------------------------
  // currentTurnInfo
  // ---------------------------------------------------------------------------

  /** What the page knows about the turn in progress. */
  datatype PageTurn = PageTurn(
    turn: int,
    currentPlayer: Player,
    picksRemaining: int,
    picksRemainingForPlayer: int,
    picksInThisTurn: int,
    picksDoneInThisTurn: int)

  /** The turn record built for round `i` of `order` when `total` picks are made. */
  function TurnAt(s: DraftState, order: seq<Round>, i: nat, total: nat): PageTurn
    requires i < |order|
  {
    var round := order[i];
    var doneInTurn := total - TotalPicks(order[..i]);
    PageTurn(i + 1, round.player, round.picks - doneInTurn,
             PicksOf(order, round.player) - |PicksOfPlayer(s, round.player)|,
             round.picks, doneInTurn)
  }

  /** The first round, from `i` on, whose running total of picks exceeds `total`. */
  function TurnFrom(s: DraftState, order: seq<Round>, i: nat, total: nat): Option<PageTurn>
    requires i <= |order|
    decreases |order| - i
  {
    if i == |order| then None
    else if total < TotalPicks(order[..i + 1]) then Some(TurnAt(s, order, i, total))
    else TurnFrom(s, order, i + 1, total)
  }

  /** `currentTurnInfo`: nothing outside the pick phase or once ten picks are made, else the
      round the next pick belongs to. */
  function CurrentTurn(s: DraftState): Option<PageTurn>
  {
    if s.phase != Picking then None
    else if TotalMade(s) >= 10 then None
    else TurnFrom(s, Adjusted(PickOrder, s.firstPlayer), 0, TotalMade(s))
  }

  lemma {:induction false} TurnFromShape(s: DraftState, order: seq<Round>, i: nat, total: nat)
    requires i <= |order|
    requires TotalPicks(order[..i]) <= total
    ensures TurnFrom(s, order, i, total).None? <==> total >= TotalPicks(order)
    ensures TurnFrom(s, order, i, total).Some? ==>
      var t := TurnFrom(s, order, i, total).value;
      var k := t.turn - 1;
      i <= k < |order| && t == TurnAt(s, order, k, total) &&
      TotalPicks(order[..k]) <= total < TotalPicks(order[..k + 1])
    decreases |order| - i
  {
    if i == |order| {
      assert order[..i] == order;
    } else {
      PrefixStep(order, i);
      if total >= TotalPicks(order[..i + 1]) {
        TurnFromShape(s, order, i + 1, total);
      } else {
        PrefixBelowTotal(order, i + 1);
      }
    }
  }

  /** Prefix sums of picks never exceed the sum over the whole order. */
  lemma {:induction false} PrefixBelowTotal(order: seq<Round>, k: nat)
    requires k <= |order|
    ensures TotalPicks(order[..k]) <= TotalPicks(order)
    decreases |order| - k
  {
    if k == |order| {
      assert order[..k] == order;
    } else {
      PrefixStep(order, k);
      PrefixBelowTotal(order, k + 1);
    }
  }

  /** The turn lookup is defined exactly in the pick phase with fewer than ten picks. Then it
      names the round whose span of picks holds the next pick: the picks made in it so far
      and those left add up to its size, at least one is left (so the handler's "no pick
      left" test never fires), and the player's remaining picks are five minus their count. */
  lemma CurrentTurnShape(s: DraftState)
    ensures CurrentTurn(s).None? <==> s.phase != Picking || TotalMade(s) >= 10
    ensures CurrentTurn(s).Some? ==>
      var t := CurrentTurn(s).value;
      var order := Adjusted(PickOrder, s.firstPlayer);
      var k := t.turn - 1;
      0 <= k < 6 &&
      TotalPicks(order[..k]) <= TotalMade(s) < TotalPicks(order[..k + 1]) &&
      t.currentPlayer == order[k].player &&
      t.picksInThisTurn == order[k].picks &&
      t.picksDoneInThisTurn == TotalMade(s) - TotalPicks(order[..k]) &&
      t.picksDoneInThisTurn + t.picksRemaining == t.picksInThisTurn &&
      1 <= t.picksRemaining <= t.picksInThisTurn &&
      t.picksRemainingForPlayer == 5 - |PicksOfPlayer(s, t.currentPlayer)|
  {
    if s.phase == Picking && TotalMade(s) < 10 {
      var order := Adjusted(PickOrder, s.firstPlayer);
      AdjustedPickOrderShape(s.firstPlayer);
      assert order[..0] == [];
      TurnFromShape(s, order, 0, TotalMade(s));
      var t := CurrentTurn(s).value;
      PrefixStep(order, t.turn - 1);
    }
  }

  /** One step of the lookup: round `i` is the answer when the total falls below the running
      sum through it, otherwise the lookup goes on from the next round. */
  lemma TurnFromStep(s: DraftState, order: seq<Round>, i: nat, total: nat)
    requires i < |order|
    ensures TurnFrom(s, order, i, total) ==
      if total < TotalPicks(order[..i]) + order[i].picks then Some(TurnAt(s, order, i, total))
      else TurnFrom(s, order, i + 1, total)
  {
    PrefixStep(order, i);
  }

  /** `currentTurnInfo` as the page computes it: a loop over the rounds that keeps the running
      total of picks in `picksDone`. */
  method CurrentTurnInfo(s: DraftState) returns (r: Option<PageTurn>)
    ensures r == CurrentTurn(s)
  {
    if s.phase != Picking {
      return None;
    }
    var totalPicks := |s.picksA| + |s.picksB|;
    if totalPicks >= 10 {
      return None;
    }
    assert totalPicks == TotalMade(s);
    r := FindTurn(s, Adjusted(PickOrder, s.firstPlayer), totalPicks);
  }

  /** The loop of `currentTurnInfo` over the rounds of `order`. */
  method FindTurn(s: DraftState, order: seq<Round>, totalPicks: nat) returns (r: Option<PageTurn>)
    ensures r == TurnFrom(s, order, 0, totalPicks)
  {
    ghost var want := TurnFrom(s, order, 0, totalPicks);
    var picksDone := 0;
    var turnIndex := 0;
    assert order[..0] == [];
    while turnIndex < |order|
      invariant 0 <= turnIndex <= |order|
      invariant picksDone == TotalPicks(order[..turnIndex])
      invariant TurnFrom(s, order, turnIndex, totalPicks) == want
    {
      var round := order[turnIndex];
      var picksBeforeThisTurn := picksDone;
      TurnFromStep(s, order, turnIndex, totalPicks);
      PrefixStep(order, turnIndex);
      picksDone := picksDone + round.picks;
      if totalPicks < picksDone {
        var picksDoneInThisTurn := totalPicks - picksBeforeThisTurn;
        var picksRemainingInTurn := round.picks - picksDoneInThisTurn;
        var playerPicksSoFar := if round.player == A then |s.picksA| else |s.picksB|;
        var totalPicksForPlayer := PicksOf(order, round.player);
        assert playerPicksSoFar == |PicksOfPlayer(s, round.player)|;
        return Some(PageTurn(turnIndex + 1, round.player, picksRemainingInTurn,
                             totalPicksForPlayer - playerPicksSoFar, round.picks, picksDoneInThisTurn));
      }
      turnIndex := turnIndex + 1;
    }
    return None;
  }

  // ---------------------------------------------------------------------------
  // handleAddPick and handleAddBan
  // ---------------------------------------------------------------------------

  /** The state after `player` asks to pick `id`, `box` being A's monsters. The tests made
      before the update: the phase, whose turn it is, picks left in the turn and A's box. */
  function AfterPick(s: DraftState, box: seq<int>, player: Player, id: int): DraftState
  {
    if s.phase != Picking then s
    else
      var info := CurrentTurn(s);
      if info.Some? && info.value.currentPlayer != player then s
      else if info.Some? && info.value.picksRemaining <= 0 then s
      else if player == A && id !in box then s
      else PickUpdate(s, player, id)
  }

  /** The updater: refuse a monster already on a team or a full team, else append and open
      the ban phase once both teams have five. */
  function PickUpdate(s: DraftState, player: Player, id: int): DraftState
  {
    if id in s.picksA || id in s.picksB then s
    else if |PicksOfPlayer(s, player)| >= 5 then s
    else
      var next := if player == A then s.(picksA := s.picksA + [id]) else s.(picksB := s.picksB + [id]);
      if |next.picksA| == 5 && |next.picksB| == 5 then next.(phase := Banning) else next
  }

  /** The pick is refused, and the state kept, outside the pick phase, out of turn, for a
      monster A does not own, for a monster already on a team and for a full team. */
  lemma PickRefusals(s: DraftState, box: seq<int>, player: Player, id: int)
    ensures s.phase != Picking ==> AfterPick(s, box, player, id) == s
    ensures CurrentTurn(s).Some? && CurrentTurn(s).value.currentPlayer != player ==> AfterPick(s, box, player, id) == s
    ensures player == A && id !in box ==> AfterPick(s, box, player, id) == s
    ensures id in s.picksA || id in s.picksB ==> AfterPick(s, box, player, id) == s
    ensures |PicksOfPlayer(s, player)| >= 5 ==> AfterPick(s, box, player, id) == s
  {
  }

  /** A pick that passes every test appends the monster to the end of the acting player's
      list only; the phase becomes the ban phase exactly when both teams reach five. */
  lemma PickAccepted(s: DraftState, box: seq<int>, player: Player, id: int)
    requires AfterPick(s, box, player, id) != s
    ensures s.phase == Picking
    ensures CurrentTurn(s).Some? ==> CurrentTurn(s).value.currentPlayer == player
    ensures player == A ==> id in box
    ensures id !in s.picksA && id !in s.picksB
    ensures var t := AfterPick(s, box, player, id);
      PicksOfPlayer(t, player) == PicksOfPlayer(s, player) + [id] &&
      PicksOfPlayer(t, Other(player)) == PicksOfPlayer(s, Other(player)) &&
      t.bansA == s.bansA && t.bansB == s.bansB && t.firstPlayer == s.firstPlayer &&
      t.currentTurn == s.currentTurn &&
      (t.phase == Banning <==> |t.picksA| == 5 && |t.picksB| == 5) &&
      (t.phase != Banning ==> t.phase == Picking)
  {
  }

  /** The page takes a pick only where the rule `canPickMonster` allows it: a monster on
      neither team. */
  lemma PickAcceptedCanPick(s: DraftState, box: seq<int>, player: Player, id: int)
    requires AfterPick(s, box, player, id) != s
    ensures CanPickMonster(id, s.picksA, s.picksB)
    ensures !CanPickMonster(id, AfterPick(s, box, player, id).picksA, AfterPick(s, box, player, id).picksB)
  {
    PickAccepted(s, box, player, id);
    var t := AfterPick(s, box, player, id);
    if player == A {
      assert t.picksA == s.picksA + [id];
    } else {
      assert t.picksB == s.picksB + [id];
    }
  }

  /** The state after `player` asks to ban `id`: only in the ban phase, only the player's first
      ban, only a monster of the opponent; both bans close the draft. */
  function AfterBan(s: DraftState, player: Player, id: int): DraftState
  {
    if s.phase != Banning then s
    else if player == A && |s.bansA| >= 1 then s
    else if player == A && id !in s.picksB then s
    else if player == B && |s.bansB| >= 1 then s
    else if player == B && id !in s.picksA then s
    else
      var next := if player == A then s.(bansA := [id]) else s.(bansB := [id]);
      if |next.bansA| == 1 && |next.bansB| == 1 then next.(phase := Completed) else next
  }

  /** A ban changes the state exactly when it is the ban phase, the player has not banned yet
      and the monster is on the other team; then only that player's ban list changes, to
      `[id]`, and the draft is completed exactly when both sides have banned. */
  lemma BanIff(s: DraftState, player: Player, id: int)
    requires |s.bansA| <= 1 && |s.bansB| <= 1
    ensures AfterBan(s, player, id) != s <==>
      s.phase == Banning && |if player == A then s.bansA else s.bansB| == 0 &&
      id in PicksOfPlayer(s, Other(player))
    ensures AfterBan(s, player, id) != s ==>
      var t := AfterBan(s, player, id);
      t.picksA == s.picksA && t.picksB == s.picksB &&
      (if player == A then t.bansA == [id] && t.bansB == s.bansB else t.bansB == [id] && t.bansA == s.bansA) &&
      (t.phase == Completed <==> |t.bansA| == 1 && |t.bansB| == 1) &&
      (t.phase != Completed ==> t.phase == Banning)
  {
  }

  // ---------------------------------------------------------------------------
  // The invariant the handlers keep
  // ---------------------------------------------------------------------------

  /** Teams of at most five with no monster twice; bans only from the ban phase on, at most
      one per side and from the other team; both teams full once picking is over, and both
      bans made once the draft is completed. */
  predicate Consistent(s: DraftState)
  {
    && |s.picksA| <= 5 && |s.picksB| <= 5
    && NoDuplicates(s.picksA + s.picksB)
    && |s.bansA| <= 1 && |s.bansB| <= 1
    && (forall i :: 0 <= i < |s.bansA| ==> s.bansA[i] in s.picksB)
    && (forall i :: 0 <= i < |s.bansB| ==> s.bansB[i] in s.picksA)
    && (s.phase == Picking ==> s.bansA == [] && s.bansB == [] && !(|s.picksA| == 5 && |s.picksB| == 5))
    && (s.phase != Picking ==> |s.picksA| == 5 && |s.picksB| == 5)
    && (s.phase == Banning ==> !(|s.bansA| == 1 && |s.bansB| == 1))
    && (s.phase == Completed ==> |s.bansA| == 1 && |s.bansB| == 1)
  }

  lemma InitialConsistent()
    ensures Consistent(InitialState)
  {
  }

  lemma NoDuplicatesAppend(picks: seq<int>, id: int)
    requires NoDuplicates(picks) && id !in picks
    ensures NoDuplicates(picks + [id])
  {
  }

  /** A monster on neither team can join either end of the first team without a repeat. */
  lemma NoDuplicatesInsert(picksA: seq<int>, picksB: seq<int>, id: int)
    requires NoDuplicates(picksA + picksB) && id !in picksA && id !in picksB
    ensures NoDuplicates((picksA + [id]) + picksB)
  {
    var u := (picksA + [id]) + picksB;
    var v := picksA + picksB;
    forall i, j | 0 <= i < j < |u|
      ensures u[i] != u[j]
    {
      if i < |picksA| && j < |picksA| {
        assert u[i] == v[i] && u[j] == v[j];
      } else if i < |picksA| && j == |picksA| {
        assert u[i] == picksA[i] && u[j] == id;
      } else if i < |picksA| {
        assert u[i] == v[i] && u[j] == v[j - 1];
      } else if i == |picksA| {
        assert u[i] == id && u[j] == picksB[j - |picksA| - 1];
      } else {
        assert u[i] == v[i - 1] && u[j] == v[j - 1];
      }
    }
  }

  lemma PickKeepsConsistent(s: DraftState, box: seq<int>, player: Player, id: int)
    requires Consistent(s)
    ensures Consistent(AfterPick(s, box, player, id))
  {
    var t := AfterPick(s, box, player, id);
    if t != s {
      PickAccepted(s, box, player, id);
      if player == A {
        NoDuplicatesInsert(s.picksA, s.picksB, id);
        assert t.picksA + t.picksB == (s.picksA + [id]) + s.picksB;
      } else {
        NoDuplicatesAppend(s.picksA + s.picksB, id);
        assert t.picksA + t.picksB == (s.picksA + s.picksB) + [id];
      }
    }
  }

  lemma BanKeepsConsistent(s: DraftState, player: Player, id: int)
    requires Consistent(s)
    ensures Consistent(AfterBan(s, player, id))
  {
  }

  /** The player who owns pick number `n` (from 0): the player of the first round, from `i`
      on, whose running total exceeds `n`; `A` past the end of the order. */
  function OwnerFrom(order: seq<Round>, i: nat, n: nat): Player
    requires i <= |order|
    decreases |order| - i
  {
    if i == |order| then A
    else if n < TotalPicks(order[..i + 1]) then order[i].player
    else OwnerFrom(order, i + 1, n)
  }

  /** How many of the first `n` picks of `order` belong to `p`. */
  function SlotsOf(order: seq<Round>, n: nat, p: Player): nat
  {
    if n == 0 then 0
    else SlotsOf(order, n - 1, p) + (if OwnerFrom(order, 0, n - 1) == p then 1 else 0)
  }

  lemma {:induction false} TurnFromOwner(s: DraftState, order: seq<Round>, i: nat, n: nat)
    requires i <= |order|
    ensures TurnFrom(s, order, i, n).Some? ==> TurnFrom(s, order, i, n).value.currentPlayer == OwnerFrom(order, i, n)
    decreases |order| - i
  {
    if i < |order| && n >= TotalPicks(order[..i + 1]) {
      TurnFromOwner(s, order, i + 1, n);
    }
  }

  /** During the pick phase each team holds exactly the picks the adjusted order has given
      its player so far. */
  predicate FollowsOrder(s: DraftState)
  {
    s.phase == Picking ==>
      var order := Adjusted(PickOrder, s.firstPlayer);
      |s.picksA| == SlotsOf(order, TotalMade(s), A) && |s.picksB| == SlotsOf(order, TotalMade(s), B)
  }

  /** An accepted pick is made by the owner of the next slot, so the picks keep following the
      order. */
  lemma PickFollowsOrder(s: DraftState, box: seq<int>, player: Player, id: int)
    requires Consistent(s) && FollowsOrder(s)
    ensures FollowsOrder(AfterPick(s, box, player, id))
  {
    var t := AfterPick(s, box, player, id);
    if t == s || t.phase != Picking {
      return;
    }
    var order := Adjusted(PickOrder, s.firstPlayer);
    var n := TotalMade(s);
    assert s.phase == Picking && n < 10 && CurrentTurn(s).value.currentPlayer == player by {
      PickAccepted(s, box, player, id);
      CurrentTurnShape(s);
    }
    assert OwnerFrom(order, 0, n) == player by {
      TurnFromOwner(s, order, 0, n);
    }
    assert && |PicksOfPlayer(t, player)| == |PicksOfPlayer(s, player)| + 1
           && |PicksOfPlayer(t, Other(player))| == |PicksOfPlayer(s, Other(player))|
           && t.firstPlayer == s.firstPlayer by {
      PickAccepted(s, box, player, id);
    }
    OwnerPickFollowsOrder(s, t, player);
  }

  /** One more pick by the owner of the next slot, and none by the other player, keeps the
      picks following the order. */
  lemma OwnerPickFollowsOrder(s: DraftState, t: DraftState, player: Player)
    requires s.phase == Picking && t.phase == Picking && FollowsOrder(s)
    requires t.firstPlayer == s.firstPlayer
    requires OwnerFrom(Adjusted(PickOrder, s.firstPlayer), 0, TotalMade(s)) == player
    requires |PicksOfPlayer(t, player)| == |PicksOfPlayer(s, player)| + 1
    requires |PicksOfPlayer(t, Other(player))| == |PicksOfPlayer(s, Other(player))|
    ensures FollowsOrder(t)
  {
    var order := Adjusted(PickOrder, s.firstPlayer);
    var n := TotalMade(s);
    assert TotalMade(t) == n + 1;
    assert SlotsOf(order, n + 1, player) == SlotsOf(order, n, player) + 1;
    assert SlotsOf(order, n + 1, Other(player)) == SlotsOf(order, n, Other(player));
  }

  /** Choosing who picks first before any pick keeps the picks following the order. */
  lemma SelectFirstFollowsOrder(s: DraftState, player: Player)
    requires s.picksA == [] && s.picksB == []
    ensures FollowsOrder(s.(firstPlayer := player))
  {
  }

  /** A ban happens outside the pick phase, where the order no longer constrains the teams. */
  lemma BanFollowsOrder(s: DraftState, player: Player, id: int)
    requires FollowsOrder(s)
    ensures FollowsOrder(AfterBan(s, player, id))
  {
  }

  /** The page's view of the draft as the rule checker receives it. */
  function Snapshot(s: DraftState): DraftSnapshot
  {
    DraftSnapshot(s.picksA, s.picksB, Some(s.bansA), Some(s.bansB), s.phase)
  }

  /** Every state the page's handlers keep consistent passes the rule checker. */
  lemma ConsistentIsValid(s: DraftState)
    requires Consistent(s)
    ensures ValidationErrors(Snapshot(s)) == []
  {
    ValidIff(Snapshot(s));
    forall i, j | 0 <= i < |s.picksA| && 0 <= j < |s.picksB|
      ensures s.picksA[i] != s.picksB[j]
    {
      assert (s.picksA + s.picksB)[i] == s.picksA[i];
      assert (s.picksA + s.picksB)[|s.picksA| + j] == s.picksB[j];
    }
  }

  // ---------------------------------------------------------------------------
  // The page object
  // ---------------------------------------------------------------------------

  /** The page: its draft state and the monsters of A's box. */
  class Page {
    var state: DraftState
    var userMonsters: seq<int>

    constructor(box: seq<int>)
      ensures state == InitialState && userMonsters == box
    {
      state := InitialState;
      userMonsters := box;
    }

    /** `handleSelectFirstPlayer`. */
    method SelectFirstPlayer(player: Player)
      modifies this
      ensures state == old(state).(firstPlayer := player)
      ensures userMonsters == old(userMonsters)
    {
      state := state.(firstPlayer := player);
    }

    /** `handleAddPick`: the tests on the current state, then the updater on a copy. */
    method HandleAddPick(player: Player, id: int)
      modifies this
      ensures state == AfterPick(old(state), old(userMonsters), player, id)
      ensures userMonsters == old(userMonsters)
    {
      if state.phase != Picking {
        return;
      }
      var info := CurrentTurnInfo(state);
      if info.Some? && info.value.currentPlayer != player {
        return;
      }
      if info.Some? && info.value.picksRemaining <= 0 {
        return;
      }
      if player == A && id !in userMonsters {
        return;
      }
      var newState := state;
      if id in newState.picksA || id in newState.picksB {
        return;
      }
      if player == A {
        if |newState.picksA| >= 5 {
          return;
        }
        newState := newState.(picksA := newState.picksA + [id]);
      } else {
        if |newState.picksB| >= 5 {
          return;
        }
        newState := newState.(picksB := newState.picksB + [id]);
      }
      if |newState.picksA| == 5 && |newState.picksB| == 5 {
        newState := newState.(phase := Banning);
      }
      state := newState;
    }

    /** `handleAddBan`. */
    method HandleAddBan(player: Player, id: int)
      modifies this
      ensures state == AfterBan(old(state), player, id)
      ensures userMonsters == old(userMonsters)
    {
      if state.phase != Banning {
        return;
      }
      var newState := state;
      if player == A {
        if |newState.bansA| >= 1 {
          return;
        }
        if id !in newState.picksB {
          return;
        }
        newState := newState.(bansA := [id]);
      } else {
        if |newState.bansB| >= 1 {
          return;
        }
        if id !in newState.picksA {
          return;
        }
        newState := newState.(bansB := [id]);
      }
      if |newState.bansA| == 1 && |newState.bansB| == 1 {
        newState := newState.(phase := Completed);
      }
      state := newState;
    }
  }

  // ---------------------------------------------------------------------------
  // Available monsters and final teams
  // ---------------------------------------------------------------------------

  /** `list[i]` is the last record of the list with id `k`. */
  predicate LastWithId(list: seq<Monster>, i: int, k: int)
  {
    0 <= i < |list| && list[i].id == k && forall j :: i < j < |list| ==> list[j].id != k
  }

  /** `allMonsters`: the catalogue records by id; a later record with the same id replaces an
      earlier one, so each id holds the last record with that id. */
  function MonstersMap(list: seq<Monster>): (r: map<int, Monster>)
    ensures forall k :: k in r <==> exists i :: 0 <= i < |list| && list[i].id == k
    ensures forall k :: k in r ==> r[k].id == k && r[k] in list
    ensures forall k :: k in r ==> exists i :: LastWithId(list, i, k) && r[k] == list[i]
  {
    if list == [] then map[]
    else
      var init := list[..|list| - 1];
      var last := list[|list| - 1];
      assert forall i :: 0 <= i < |init| ==> init[i] == list[i];
      var r := MonstersMap(init)[last.id := last];
      assert forall k :: k in r ==> exists i :: LastWithId(list, i, k) && r[k] == list[i] by {
        forall k | k in r ensures exists i :: LastWithId(list, i, k) && r[k] == list[i] {
          if k == last.id {
            assert LastWithId(list, |list| - 1, k);
          } else {
            var i :| LastWithId(init, i, k) && MonstersMap(init)[k] == init[i];
            assert LastWithId(list, i, k);
          }
        }
      }
      r
  }

  /** The ids of the catalogue records, in the order they appear. */
  function IdsOf(list: seq<Monster>): (r: seq<int>)
    ensures |r| == |list| && forall i :: 0 <= i < |list| ==> r[i] == list[i].id
  {
    seq(|list|, i requires 0 <= i < |list| => list[i].id)
  }

  /** `Object.values(allMonsters)`: one record per id, in increasing order of id. */
  function ValuesByKey(list: seq<Monster>): (r: seq<Monster>)
  {
    var all := MonstersMap(list);
    var keys := SortedDistinct(IdsOf(list));
    seq(|keys|, i requires 0 <= i < |keys| => if keys[i] in all then all[keys[i]] else list[0])
  }

  /** The values list the map's record for each key in increasing order of key. */
  lemma ValuesByKeyEntries(list: seq<Monster>)
    ensures var keys := SortedDistinct(IdsOf(list));
      && |ValuesByKey(list)| == |keys|
      && forall i :: 0 <= i < |keys| ==>
           keys[i] in MonstersMap(list) && ValuesByKey(list)[i] == MonstersMap(list)[keys[i]]
  {
    var keys := SortedDistinct(IdsOf(list));
    forall i | 0 <= i < |keys| ensures keys[i] in MonstersMap(list) {
      assert keys[i] in IdsOf(list);
    }
  }

  /** `Object.values` lists the records by strictly increasing id. */
  lemma ValuesByKeyIncreasing(list: seq<Monster>)
    ensures var r := ValuesByKey(list);
      forall i, j :: 0 <= i < j < |r| ==> r[i].id < r[j].id
  {
    var keys := SortedDistinct(IdsOf(list));
    ValuesByKeyEntries(list);
    assert forall i :: 0 <= i < |keys| ==> ValuesByKey(list)[i].id == keys[i];
  }

  /** A record is among `Object.values` exactly when it is the map's record for its id. */
  lemma ValuesByKeyMembers(list: seq<Monster>, m: Monster)
    ensures m in ValuesByKey(list) <==> m.id in MonstersMap(list) && MonstersMap(list)[m.id] == m
  {
    var all := MonstersMap(list);
    var keys := SortedDistinct(IdsOf(list));
    var r := ValuesByKey(list);
    ValuesByKeyEntries(list);
    if m.id in all && all[m.id] == m {
      var j :| 0 <= j < |list| && list[j].id == m.id;
      assert IdsOf(list)[j] == m.id;
      assert m.id in IdsOf(list);
      assert m.id in keys;
      var i :| 0 <= i < |keys| && keys[i] == m.id;
      assert r[i] == m;
    }
  }

  /** The search box and the two selectors: an empty search and "all" impose nothing. */
  predicate PassesFilters(m: Monster, search: string, element: string, categorie: string)
  {
    && (search == [] || Contains(ToLower(m.nom), ToLower(search)))
    && (element == "all" || m.element == element)
    && (categorie == "all" || m.categorie == categorie)
  }

  /** A's box without the picked ids. */
  function UnpickedIds(box: seq<int>, picked: seq<int>): seq<int>
  {
    Filter((id: int) => id !in picked, box)
  }

  /** The records of `ids`, skipping ids without a record. */
  function Records(all: map<int, Monster>, ids: seq<int>): (r: seq<Monster>)
    ensures forall m :: m in r <==> exists i :: 0 <= i < |ids| && ids[i] in all && all[ids[i]] == m
  {
    if ids == [] then []
    else
      var rest := Records(all, ids[1..]);
      assert forall i :: 0 < i < |ids| ==> ids[i] == ids[1..][i - 1];
      if ids[0] in all then [all[ids[0]]] + rest else rest
  }

  /** The monsters A may still pick: the unpicked ids of the box that have a record, then the
      filters. */
  function AvailableForA(s: DraftState, box: seq<int>, all: map<int, Monster>,
                         search: string, element: string, categorie: string): seq<Monster>
  {
    Filter((m: Monster) => PassesFilters(m, search, element, categorie),
           Records(all, UnpickedIds(box, s.picksA + s.picksB)))
  }

  /** The monsters B may still pick: every record whose id is not picked, then the filters. */
  function AvailableForB(s: DraftState, list: seq<Monster>,
                         search: string, element: string, categorie: string): seq<Monster>
  {
    Filter((m: Monster) => PassesFilters(m, search, element, categorie),
           Filter((m: Monster) => m.id !in s.picksA + s.picksB, ValuesByKey(list)))
  }

  /** A record is offered to A exactly when it is the catalogue's record for an id of A's box
      that neither team picked and it passes the filters. */
  lemma AvailableForAIff(s: DraftState, box: seq<int>, list: seq<Monster>,
                         search: string, element: string, categorie: string, m: Monster)
    ensures m in AvailableForA(s, box, MonstersMap(list), search, element, categorie) <==>
      && m.id in box && m.id !in s.picksA && m.id !in s.picksB
      && m.id in MonstersMap(list) && MonstersMap(list)[m.id] == m
      && PassesFilters(m, search, element, categorie)
  {
    var all := MonstersMap(list);
    var ids := UnpickedIds(box, s.picksA + s.picksB);
    if m.id in box && m.id !in s.picksA + s.picksB && m.id in all && all[m.id] == m {
      var k :| 0 <= k < |box| && box[k] == m.id;
      assert m.id in ids;
      var j :| 0 <= j < |ids| && ids[j] == m.id;
      assert m in Records(all, ids);
    }
  }

  /** A record is offered to B exactly when it is the catalogue's record for its id, that id
      was not picked, and it passes the filters. */
  lemma AvailableForBIff(s: DraftState, list: seq<Monster>,
                         search: string, element: string, categorie: string, m: Monster)
    ensures m in AvailableForB(s, list, search, element, categorie) <==>
      && m.id in MonstersMap(list) && MonstersMap(list)[m.id] == m
      && m.id !in s.picksA && m.id !in s.picksB
      && PassesFilters(m, search, element, categorie)
  {
    ValuesByKeyMembers(list, m);
  }

  /** A team after the opponent's bans. */
  function FinalTeam(picks: seq<int>, opponentBans: seq<int>): seq<int>
  {
    Filter((id: int) => id !in opponentBans, picks)
  }

  /** The final team keeps, in pick order, exactly the picks the opponent did not ban. */
  lemma FinalTeamIff(picks: seq<int>, opponentBans: seq<int>)
    ensures forall id :: id in FinalTeam(picks, opponentBans) <==> id in picks && id !in opponentBans
    ensures IsSubsequence(FinalTeam(picks, opponentBans), picks)
  {
    FilterIsSubsequence((id: int) => id !in opponentBans, picks);
  }

  /** In a completed consistent draft each final team has exactly four monsters. */
  lemma CompletedTeamsHaveFour(s: DraftState)
    requires Consistent(s) && s.phase == Completed
    ensures |FinalTeam(s.picksA, s.bansB)| == 4 && |FinalTeam(s.picksB, s.bansA)| == 4
  {
    assert s.picksA + s.picksB == s.picksA + s.picksB;
    OneBanRemovesOne(s.picksA, s.bansB[0], s.picksA + s.picksB, 0);
    OneBanRemovesOne(s.picksB, s.bansA[0], s.picksA + s.picksB, |s.picksA|);
    assert s.bansB == [s.bansB[0]] && s.bansA == [s.bansA[0]];
  }

  /** Removing one id that occurs exactly once drops exactly one element. */
  lemma {:induction false} OneBanRemovesOne(picks: seq<int>, id: int, whole: seq<int>, offset: nat)
    requires offset + |picks| <= |whole| && whole[offset..offset + |picks|] == picks
    requires NoDuplicates(whole) && id in picks
    ensures |FinalTeam(picks, [id])| == |picks| - 1
    decreases |picks|
  {
    assert picks[0] == whole[offset];
    if picks[0] == id {
      assert forall i :: 0 < i < |picks| ==> picks[i] == whole[offset + i];
      assert id !in picks[1..];
      BanOutsideKeepsAll(picks[1..], id);
    } else {
      assert whole[offset + 1..offset + 1 + |picks[1..]|] == picks[1..];
      OneBanRemovesOne(picks[1..], id, whole, offset + 1);
    }
  }

  lemma {:induction false} BanOutsideKeepsAll(picks: seq<int>, id: int)
    requires id !in picks
    ensures FinalTeam(picks, [id]) == picks
  {
    if picks != [] {
      BanOutsideKeepsAll(picks[1..], id);
    }
  }
}
