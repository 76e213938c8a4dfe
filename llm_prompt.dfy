/** The recommendation prompt: the draft context written from player A's point of view, the
    phase's instructions with at most fifty available monster names, the first-pick test and
    the names of the box monsters the catalogue knows. */
module LlmPrompt {
  import opened Common
  import opened RtaRules
  import opened Catalogue
  import opened DraftPage

  // ---------------------------------------------------------------------------
  // Display names
  // ---------------------------------------------------------------------------

  /** The names the caller may pass for each list of the state; a missing list is `None`. */
  datatype ContextNames = ContextNames(
    picksA: Option<seq<string>>,
    picksB: Option<seq<string>>,
    bansA: Option<seq<string>>,
    bansB: Option<seq<string>>)

  const NoNames := ContextNames(None, None, None, None)

  /** The text an unnamed monster is shown with. */
  function UnnamedLabel(id: int): (r: string)
    ensures StartsWith(r, "Monstre ID ")
  {
    "Monstre ID " + IntToString(id)
  }

  /** `getDisplayName`: the name at `index` when the list is given and holds one there, else
      the id. */
  function GetDisplayName(id: int, index: int, names: Option<seq<string>>): (r: string)
    ensures names.Some? && 0 <= index < |names.value| ==> r == names.value[index]
    ensures names.None? || index < 0 || index >= |names.value| ==> r == UnnamedLabel(id)
  {
    if names.Some? && 0 <= index < |names.value| then names.value[index] else UnnamedLabel(id)
  }

  /** The display names of a list of ids, each looked up at its own position. */
  function DisplayNames(ids: seq<int>, names: Option<seq<string>>): (r: seq<string>)
    ensures |r| == |ids|
    ensures forall i :: 0 <= i < |ids| ==> r[i] == GetDisplayName(ids[i], i, names)
  {
    seq(|ids|, i requires 0 <= i < |ids| => GetDisplayName(ids[i], i, names))
  }

  // ---------------------------------------------------------------------------
  // buildDraftContext
  // ---------------------------------------------------------------------------

  function PhaseText(phase: DraftPhase): string
  {
    match phase
    case Picking => "picking"
    case Banning => "banning"
    case Completed => "completed"
  }

  function PlayerText(p: Player): string
  {
    if p == A then "A" else "B"
  }

  const NoPickLine: string := "  Aucun monstre sélectionné pour le moment"

  /** The line of the `i`-th pick of a team, numbered from one. */
  function TeamLine(i: nat, name: string): string
  {
    "  " + IntToString(i + 1) + ". " + name
  }

  function TeamLines(ids: seq<int>, names: Option<seq<string>>): (r: seq<string>)
    ensures |r| == |ids|
  {
    var shown := DisplayNames(ids, names);
    seq(|ids|, i requires 0 <= i < |ids| => TeamLine(i, shown[i]))
  }

  /** A team's picks: one numbered line each, or a fixed line when there is none. */
  function TeamBlock(ids: seq<int>, names: Option<seq<string>>): string
  {
    if |ids| > 0 then Join("\n", TeamLines(ids, names)) else NoPickLine
  }

  /** The bans of a side in the ban phase: their names separated by commas, or a fixed text. */
  function BanList(ids: seq<int>, names: Option<seq<string>>): string
  {
    if |ids| > 0 then Join(", ", DisplayNames(ids, names)) else "Pas encore banni"
  }

  /** The names of the monsters a team keeps: each is named from the first position of its id
      in the pick list. */
  function FinalNames(picks: seq<int>, opponentBans: seq<int>, names: Option<seq<string>>): (r: seq<string>)
    ensures |r| == |FinalTeam(picks, opponentBans)|
  {
    var team := FinalTeam(picks, opponentBans);
    seq(|team|, i requires 0 <= i < |team| => GetDisplayName(team[i], IndexOf(picks, team[i]), names))
  }

  /** The turn line: the page's turn index plus one. */
  function TurnLine(currentTurn: int): string
  {
    "\n- Tour: " + IntToString(currentTurn + 1) + "\n"
  }

  /** The ban block, present only in the ban phase. */
  function BanBlock(s: DraftState, names: ContextNames): (r: string)
    ensures r == "" <==> s.phase != Banning
  {
    if s.phase == Banning then
      Concat(["\nPhase de bans en cours :\n- Bans Joueur A: ", BanList(s.bansA, names.bansA),
              "\n- Bans Joueur B: ", BanList(s.bansB, names.bansB), "\n"])
    else ""
  }

  /** The final-analysis block, present only once the draft is completed. */
  function CompletedBlock(s: DraftState, names: ContextNames): (r: string)
    ensures r == "" <==> s.phase != Completed
  {
    if s.phase == Completed then
      Concat(["\nDraft terminé - Analyse finale :\n- Bans Joueur A: ", Join(", ", DisplayNames(s.bansA, names.bansA)),
              "\n- Bans Joueur B: ", Join(", ", DisplayNames(s.bansB, names.bansB)),
              "\n- Monstres finaux Joueur A (4): ", Join(", ", FinalNames(s.picksA, s.bansB, names.picksA)),
              "\n- Monstres finaux Joueur B (4): ", Join(", ", FinalNames(s.picksB, s.bansA, names.picksB)), "\n"])
    else ""
  }

  /** The fixed texts of the context around its variable parts, in order. */
  function ContextLayout(phase: string, turnLine: string, first: string, countA: string, teamA: string,
                         countB: string, teamB: string, banBlock: string, completedBlock: string): seq<string>
  {
    ["\nÉtat actuel du draft RTA - PERSPECTIVE DU JOUEUR A :\n\n- Phase: ", phase,
     turnLine,
     "- Premier joueur: ", first,
     "\n\nVOTRE ÉQUIPE (Joueur A) - ", countA, "/5 picks :\n",
     teamA,
     "\n\nÉQUIPE ADVERSAIRE (Joueur B) - ", countB, "/5 picks :\n",
     teamB,
     "\n\n", banBlock, "\n", completedBlock, "\n"]
  }

  /** The pieces of the context, in order. */
  function ContextPieces(s: DraftState, names: ContextNames): seq<string>
  {
    ContextLayout(PhaseText(s.phase), TurnLine(s.currentTurn), PlayerText(s.firstPlayer),
                  IntToString(|s.picksA|), TeamBlock(s.picksA, names.picksA),
                  IntToString(|s.picksB|), TeamBlock(s.picksB, names.picksB),
                  BanBlock(s, names), CompletedBlock(s, names))
  }

  /** `buildDraftContext`. */
  function BuildDraftContext(s: DraftState, names: ContextNames): string
  {
    Concat(ContextPieces(s, names))
  }

  /** The context holds the turn line with `currentTurn + 1` and both team blocks; it holds the
      ban block, which is empty outside the ban phase, and the final-analysis block, which is
      empty until the draft is completed. */
  lemma ContextParts(s: DraftState, names: ContextNames)
    ensures var ctx := BuildDraftContext(s, names);
      && Contains(ctx, TurnLine(s.currentTurn))
      && Contains(ctx, TeamBlock(s.picksA, names.picksA))
      && Contains(ctx, TeamBlock(s.picksB, names.picksB))
      && Contains(ctx, BanBlock(s, names))
      && Contains(ctx, CompletedBlock(s, names))
  {
    var phase, first, countA, countB := PhaseText(s.phase), PlayerText(s.firstPlayer), IntToString(|s.picksA|), IntToString(|s.picksB|);
    var turn, teamA, teamB := TurnLine(s.currentTurn), TeamBlock(s.picksA, names.picksA), TeamBlock(s.picksB, names.picksB);
    var ban, completed := BanBlock(s, names), CompletedBlock(s, names);
    LayoutHoldsTeams(phase, turn, first, countA, teamA, countB, teamB, ban, completed);
    LayoutHoldsBlocks(phase, turn, first, countA, teamA, countB, teamB, ban, completed);
  }

  /** The context's layout holds the turn line and both team blocks. */
  lemma LayoutHoldsTeams(phase: string, turnLine: string, first: string, countA: string, teamA: string,
                         countB: string, teamB: string, banBlock: string, completedBlock: string)
    ensures var ctx := Concat(ContextLayout(phase, turnLine, first, countA, teamA, countB, teamB, banBlock, completedBlock));
      Contains(ctx, turnLine) && Contains(ctx, teamA) && Contains(ctx, teamB)
  {
    var pieces := ContextLayout(phase, turnLine, first, countA, teamA, countB, teamB, banBlock, completedBlock);
    ConcatContains(pieces, 2);
    ConcatContains(pieces, 8);
    ConcatContains(pieces, 12);
  }

  /** The context's layout holds the ban and final-analysis blocks. */
  lemma LayoutHoldsBlocks(phase: string, turnLine: string, first: string, countA: string, teamA: string,
                          countB: string, teamB: string, banBlock: string, completedBlock: string)
    ensures var ctx := Concat(ContextLayout(phase, turnLine, first, countA, teamA, countB, teamB, banBlock, completedBlock));
      Contains(ctx, banBlock) && Contains(ctx, completedBlock)
  {
    var pieces := ContextLayout(phase, turnLine, first, countA, teamA, countB, teamB, banBlock, completedBlock);
    ConcatContains(pieces, 14);
    ConcatContains(pieces, 16);
  }

  /** A display name holds no line break when the given names hold none. */
  lemma DisplayNameAvoidsBreak(id: int, index: int, names: Option<seq<string>>)
    requires names.Some? ==> forall n :: n in names.value ==> '\n' !in n
    ensures '\n' !in GetDisplayName(id, index, names)
  {
    if names.Some? && 0 <= index < |names.value| {
      assert names.value[index] in names.value;
    } else {
      IntToStringPlain(id);
      assert UnnamedLabel(id) == "Monstre ID " + IntToString(id);
    }
  }

  /** When no name holds a line break, the block's lines are exactly the numbered pick lines,
      one per pick in pick order. */
  lemma TeamBlockLines(ids: seq<int>, names: Option<seq<string>>)
    requires |ids| > 0
    requires names.Some? ==> forall n :: n in names.value ==> '\n' !in n
    ensures Split(TeamBlock(ids, names), "\n") == TeamLines(ids, names)
    ensures forall i :: 0 <= i < |ids| ==>
      TeamLines(ids, names)[i] == TeamLine(i, GetDisplayName(ids[i], i, names))
  {
    var lines := TeamLines(ids, names);
    forall i | 0 <= i < |lines| ensures '\n' !in lines[i] {
      DisplayNameAvoidsBreak(ids[i], i, names);
      IntToStringPlain(i + 1);
    }
    JoinSplit('\n', lines);
  }

  /** With names given as a function of the id, each kept pick is named by it: naming from the
      first position of the id gives the same name as naming from its own position. */
  lemma FinalNamesByLabel(picks: seq<int>, opponentBans: seq<int>, nameOf: int -> string)
    ensures var team := FinalTeam(picks, opponentBans);
      var names := Some(seq(|picks|, i requires 0 <= i < |picks| => nameOf(picks[i])));
      forall i :: 0 <= i < |team| ==> FinalNames(picks, opponentBans, names)[i] == nameOf(team[i])
  {
    var team := FinalTeam(picks, opponentBans);
    var names := seq(|picks|, i requires 0 <= i < |picks| => nameOf(picks[i]));
    forall i | 0 <= i < |team| ensures FinalNames(picks, opponentBans, Some(names))[i] == nameOf(team[i]) {
      assert team[i] in picks;
      var k := IndexOf(picks, team[i]);
      assert 0 <= k < |picks| && picks[k] == team[i];
    }
  }

  /** Once a consistent draft is completed, each "(4)" line names four monsters. */
  lemma CompletedListsFour(s: DraftState, names: ContextNames)
    requires Consistent(s) && s.phase == Completed
    ensures |FinalNames(s.picksA, s.bansB, names.picksA)| == 4
    ensures |FinalNames(s.picksB, s.bansA, names.picksB)| == 4
  {
    CompletedTeamsHaveFour(s);
  }

  // ---------------------------------------------------------------------------
  // buildUserPrompt
  // ---------------------------------------------------------------------------

  const SystemInstructions: string :=
    "\nExpert Summoners War RTA. Règles draft : 5 picks/joueur, 1 ban/joueur, 4 monstres finaux.\n"
    + "Recommandations : noms complets des monstres, synergies, contre-picks, win conditions.\n"

  const MaxListed: nat := 50

  /** The first fifty names separated by commas, followed by "..." when there are more. */
  function AvailableText(available: seq<string>): string
  {
    var shown := if |available| > MaxListed then available[..MaxListed] else available;
    Join(", ", shown) + (if |available| > MaxListed then "..." else "")
  }

  /** The list of the box's monsters inside the pick instructions. */
  function AvailableBlock(available: seq<string>): string
  {
    Concat(["Monstres disponibles dans votre box (", IntToString(|available|), "): ", AvailableText(available),
            "\nIMPORTANT: Recommande UNIQUEMENT des monstres de cette liste."])
  }

  /** The pick instructions around the list of the box. */
  function PickIntro(isFirstPick: bool): string
  {
    if isFirstPick then "\nPremier pick Joueur A. Recommande 3-5 monstres polyvalents forts.\n"
    else "\nPick Joueur A. Recommande 3-5 monstres complétant l'équipe.\n"
  }

  function PickOutro(isFirstPick: bool): string
  {
    if isFirstPick then "\nFormat: \"Je recommande [Nom1], [Nom2], [Nom3] car [raison]\"\nMaximum 50 mots.\n"
    else "\nAnalyse synergies, faiblesses, forces. Noms complets des monstres.\nMaximum 60 mots.\n"
  }

  /** The instructions of the phase. */
  function PhaseInstructions(phase: DraftPhase, isFirstPick: bool, available: seq<string>): string
  {
    match phase
    case Picking =>
      var list :=
        if |available| > 0 then AvailableBlock(available)
        else if isFirstPick then "Choisis parmi les monstres disponibles."
        else "";
      Concat([PickIntro(isFirstPick), list, PickOutro(isFirstPick)])
    case Banning =>
      "\nBan Joueur A. Bannir 1 monstre de l'équipe adverse.\n"
      + "Identifie le monstre le plus dangereux ou qui casse les synergies.\n"
      + "Format: \"Je recommande de bannir [Nom] car [raison]\"\nMaximum 40 mots.\n"
    case Completed =>
      "\nLe draft est terminé. Fais une analyse complète pour le Joueur A :\n"
      + "- Évalue la force de votre équipe finale (Joueur A) après les bans\n"
      + "- Identifie les avantages et désavantages de votre composition\n"
      + "- Prédit vos chances de gagner et pourquoi\n"
      + "- Donne des conseils stratégiques concis pour le combat à venir (maximum 150 mots)\n"
  }

  const PromptFooter: string :=
    "\n\nFormat réponse :\n- Ultra-concis (50 mots max premier pick, 60 mots picks suivants, 40 mots banning)\n"
    + "- Noms des monstres EN PREMIER\n- Une phrase par monstre\n- Français, direct, focus Joueur A uniquement\n\n"
    + "Réponds maintenant :"

  /** The pieces of the prompt, in order. */
  function PromptPieces(context: string, instructions: string): seq<string>
  {
    [SystemInstructions, "\n\n", context, "\n\nAnalyse stratégique demandée :\n\n", instructions, PromptFooter]
  }

  /** `buildUserPrompt`; the names argument of the source is not read, so it is not a
      parameter. */
  function BuildUserPrompt(context: string, phase: DraftPhase, isFirstPick: bool, available: seq<string>): string
  {
    Concat(PromptPieces(context, PhaseInstructions(phase, isFirstPick, available)))
  }

  /** Up to fifty names the text is the whole list; beyond, only the first fifty count and the
      text ends with "...". */
  lemma AvailableTextTruncates(available: seq<string>, other: seq<string>)
    ensures |available| <= MaxListed ==> AvailableText(available) == Join(", ", available)
    ensures |available| > MaxListed ==> AvailableText(available) == AvailableText(available[..MaxListed]) + "..."
    ensures |available| > MaxListed && |other| > MaxListed && available[..MaxListed] == other[..MaxListed] ==>
      AvailableText(available) == AvailableText(other)
  {
    if |available| > MaxListed {
      assert available[..MaxListed][..MaxListed] == available[..MaxListed];
    }
  }

  /** When no name holds a comma, the text names exactly `min(n, 50)` monsters: it holds one
      comma fewer. */
  lemma AvailableTextCount(available: seq<string>)
    requires |available| > 0
    requires forall n :: n in available ==> ',' !in n
    ensures CountChar(',', AvailableText(available)) == (if |available| > MaxListed then MaxListed else |available|) - 1
  {
    var shown := if |available| > MaxListed then available[..MaxListed] else available;
    assert forall n :: n in shown ==> n in available;
    assert CountChar(',', ", ") == 1;
    JoinCountsChar(',', ", ", shown);
    CountCharAppend(',', Join(", ", shown), if |available| > MaxListed then "..." else "");
    assert CountChar(',', "...") == 0;
  }

  /** The prompt holds the context. */
  lemma PromptHoldsContext(context: string, phase: DraftPhase, isFirstPick: bool, available: seq<string>)
    ensures Contains(BuildUserPrompt(context, phase, isFirstPick, available), context)
  {
    PiecesHold(context, PhaseInstructions(phase, isFirstPick, available));
  }

  /** The prompt's pieces hold the context and the instructions. */
  lemma PiecesHold(context: string, instructions: string)
    ensures Contains(Concat(PromptPieces(context, instructions)), context)
    ensures Contains(Concat(PromptPieces(context, instructions)), instructions)
  {
    ConcatContains(PromptPieces(context, instructions), 2);
    ConcatContains(PromptPieces(context, instructions), 4);
  }

  /** The list block holds the list's text. */
  lemma AvailableBlockHoldsText(available: seq<string>)
    ensures Contains(AvailableBlock(available), AvailableText(available))
  {
    ConcatContains(["Monstres disponibles dans votre box (", IntToString(|available|), "): ", AvailableText(available),
                    "\nIMPORTANT: Recommande UNIQUEMENT des monstres de cette liste."], 3);
  }

  /** The pick instructions hold the list block when the list is not empty. */
  lemma InstructionsHoldBlock(isFirstPick: bool, available: seq<string>)
    requires |available| > 0
    ensures Contains(PhaseInstructions(Picking, isFirstPick, available), AvailableBlock(available))
  {
    MiddleHolds(PickIntro(isFirstPick), AvailableBlock(available), PickOutro(isFirstPick));
  }

  lemma MiddleHolds(intro: string, block: string, outro: string)
    ensures Contains(Concat([intro, block, outro]), block)
  {
    ConcatContains([intro, block, outro], 1);
  }

  /** The prompt holds the phase's instructions. */
  lemma PromptHoldsInstructions(context: string, phase: DraftPhase, isFirstPick: bool, available: seq<string>)
    ensures Contains(BuildUserPrompt(context, phase, isFirstPick, available), PhaseInstructions(phase, isFirstPick, available))
  {
    PiecesHold(context, PhaseInstructions(phase, isFirstPick, available));
  }

  /** In the pick phase with a non-empty list, the prompt holds the list's text. */
  lemma PromptHoldsAvailable(context: string, isFirstPick: bool, available: seq<string>)
    requires |available| > 0
    ensures Contains(BuildUserPrompt(context, Picking, isFirstPick, available), AvailableText(available))
  {
    var prompt := BuildUserPrompt(context, Picking, isFirstPick, available);
    var instructions := PhaseInstructions(Picking, isFirstPick, available);
    var block := AvailableBlock(available);
    PromptHoldsInstructions(context, Picking, isFirstPick, available);
    InstructionsHoldBlock(isFirstPick, available);
    AvailableBlockHoldsText(available);
    ContainsTrans(prompt, instructions, block);
    ContainsTrans(prompt, block, AvailableText(available));
  }

  /** The ban and final instructions read neither the first-pick flag nor the list. */
  lemma InstructionsIgnoreList(phase: DraftPhase, isFirstPick: bool, available: seq<string>)
    requires phase != Picking
    ensures PhaseInstructions(phase, isFirstPick, available) == PhaseInstructions(phase, false, [])
  {
  }

  // ---------------------------------------------------------------------------
  // generateRecommendation: first pick and available names
  // ---------------------------------------------------------------------------

  /** The first pick of the whole draft, made by A. */
  predicate IsFirstPick(s: DraftState)
  {
    s.phase == Picking && |s.picksA| == 0 && |s.picksB| == 0 && s.firstPlayer == A
  }

  /** On the first pick the page's turn lookup agrees: turn one, player A, one pick in the
      turn, five picks left for A. */
  lemma FirstPickTurn(s: DraftState)
    requires IsFirstPick(s)
    ensures CurrentTurn(s) == Some(PageTurn(1, A, 1, 5, 1, 0))
  {
    PickOrderShape();
    assert Adjusted(PickOrder, A) == PickOrder;
    assert PickOrder[..0] == [];
    assert PickOrder[..1] == [PickOrder[0]];
  }

  /** `getMonsterName`: the catalogue's first record with the id, written with its element and
      category, or the id. */
  function MonsterLabel(all: seq<Monster>, id: int): string
  {
    match FindMonsterById(all, id)
    case Some(m) => m.nom + " (" + m.element + ", " + m.categorie + ")"
    case None => UnnamedLabel(id)
  }

  function Labels(all: seq<Monster>, ids: seq<int>): (r: seq<string>)
    ensures |r| == |ids| && forall i :: 0 <= i < |ids| ==> r[i] == MonsterLabel(all, ids[i])
  {
    seq(|ids|, i requires 0 <= i < |ids| => MonsterLabel(all, ids[i]))
  }

  /** The names passed to the context: every list labelled through the catalogue. */
  function RecommendationNames(all: seq<Monster>, s: DraftState): ContextNames
  {
    ContextNames(Some(Labels(all, s.picksA)), Some(Labels(all, s.picksB)),
                 Some(Labels(all, s.bansA)), Some(Labels(all, s.bansB)))
  }

  /** Names that do not mark an unknown monster. */
  function KnownNames(labels: seq<string>): seq<string>
  {
    Filter((name: string) => !Contains(name, "Monstre ID"), labels)
  }

  /** The names of the box's monsters, only in the pick phase and with a non-empty box. */
  function AvailableMonsterNames(s: DraftState, box: seq<int>, all: seq<Monster>): seq<string>
  {
    if s.phase == Picking && |box| > 0 then KnownNames(Labels(all, box)) else []
  }

  /** A name is offered exactly in the pick phase, when it labels a monster of the box and
      does not contain "Monstre ID"; in particular an id the catalogue lacks is never
      offered. Picked monsters are not removed. */
  lemma AvailableMonsterNamesIff(s: DraftState, box: seq<int>, all: seq<Monster>, name: string)
    ensures name in AvailableMonsterNames(s, box, all) <==>
      && s.phase == Picking
      && (exists i :: 0 <= i < |box| && MonsterLabel(all, box[i]) == name)
      && !Contains(name, "Monstre ID")
  {
    var labels := Labels(all, box);
    if s.phase == Picking && (exists i :: 0 <= i < |box| && MonsterLabel(all, box[i]) == name) {
      var i :| 0 <= i < |box| && MonsterLabel(all, box[i]) == name;
      assert labels[i] == name;
    }
  }

  /** The label of an id without a record is never offered. */
  lemma UnknownIdNotOffered(s: DraftState, box: seq<int>, all: seq<Monster>, id: int)
    requires FindMonsterById(all, id).None?
    ensures MonsterLabel(all, id) !in AvailableMonsterNames(s, box, all)
  {
    var text := MonsterLabel(all, id);
    ContainsMiddle("", "Monstre ID", " " + IntToString(id));
    assert text == "" + "Monstre ID" + (" " + IntToString(id));
  }

  /** With the names built from the catalogue, every list entry is the label of its id, so no
      position ever falls back to the bare id unless the catalogue lacks it. */
  lemma RecommendationNamesLabel(all: seq<Monster>, s: DraftState)
    ensures var names := RecommendationNames(all, s);
      && (forall i :: 0 <= i < |s.picksA| ==> GetDisplayName(s.picksA[i], i, names.picksA) == MonsterLabel(all, s.picksA[i]))
      && (forall i :: 0 <= i < |s.picksB| ==> GetDisplayName(s.picksB[i], i, names.picksB) == MonsterLabel(all, s.picksB[i]))
      && (forall i :: 0 <= i < |s.bansA| ==> GetDisplayName(s.bansA[i], i, names.bansA) == MonsterLabel(all, s.bansA[i]))
      && (forall i :: 0 <= i < |s.bansB| ==> GetDisplayName(s.bansB[i], i, names.bansB) == MonsterLabel(all, s.bansB[i]))
  {
  }
}
