# SWARM-LLM draft assistant — a verified model of its core

SWARM-LLM helps a Summoners War player through a ranked (RTA) draft.
- **Rules and draft page.** The web application enforces the snake pick order: A 1, B 2, A 2, B 2, A 2, B 1. It tracks the turn in progress, accepts or refuses picks and bans, and validates a draft state.
- **Catalogue.** It loads and normalises the monster catalogue, filters it, looks monsters up and counts them.
- **Box and rank.** It manages the player's box of monsters and maps victory points to ranks.
- **History.** It stores finished drafts in a history file, which can be queried and exported as CSV.
- **Prompt.** It writes the prompt that asks a language model for a recommendation.
- **Back end.** Two Python back ends propose picks:
  - a fine-tuned sequence model whose decoding is constrained to the monsters still available;
  - a pair-scoring network whose input is a multi-hot encoding of both rosters. Its text context lists every candidate pair of player A sorted by score.

The model has one Dafny module per core source file:
- **Pure code** becomes datatypes, functions and lemmas.
- **Loops** become methods proved against those functions.
- **Objects the source updates in place** become classes: the draft page's state (`DraftPage.Page`) and the history store (`DraftHistory.DraftStore`).

| module | file | models |
|---|---|---|
| `Common` | common.dfy | Option/Result, filtering, joining and splitting strings, integer text, ASCII lower-casing, counting dictionaries |
| `RtaRules` | rta_rules.dfy | webapp/lib/rta-rules.ts |
| `RankUtils` | rank.dfy | webapp/lib/rank-utils.ts |
| `Catalogue` | catalogue.dfy | webapp/lib/monsters.ts and its copy lib/monsters.ts |
| `MonstersRoute` | monsters_route.dfy | webapp/app/api/monsters/route.ts |
| `ConvertMonsters` | convert_monsters.dfy | scripts/convert-monsters.js |
| `BoxPage` | box_page.dfy | webapp/app/box/page.tsx |
| `DraftPage` | draft_page.dfy | webapp/app/draft/page.tsx |
| `DraftHistory` | draft_history.dfy | webapp/lib/draft-data-collector.ts |
| `LlmPrompt` | llm_prompt.dfy | webapp/lib/llm-prompt.ts |
| `OracleInput` | oracle_input.dfy | backend/my_model.py |
| `PairContext` | pair_context.dfy | backend/main.py (`get_neural_net_context`) |
| `FineTuned` | fine_tuned.dfy | backend/lll_fine_tuned.py |

Things the code does that are preserved as written:
- `availableMonsterNames` in webapp/lib/llm-prompt.ts offers every monster of the box, including monsters already picked. Only the page's own lists remove picked monsters.
- `buildUserPrompt` never reads its `monsterNames` argument.
- `getCurrentTurnInfo` reports five minus a running total of both players' picks as the picks remaining. For the first player's rounds the total includes the round; for the other player's rounds it stops before the round. From the fifth round on this is negative (`RtaRules.PicksRemainingTable`).
- `loadDraftHistory` turns an unreadable file into an empty history. A `saveDraft` after that writes a file holding only the new draft.
- The pair network pads a short roster with the id 23711, which is a real monster's id.
- The repair step of the fine-tuned generator raises `ValueError` for any extracted id that `int()` cannot read, even one that is found verbatim in the pool. A verbatim hit short-circuits the membership test (backend/lll_fine_tuned.py:132), but the accepted id is then discarded as `int(id)` too (backend/lll_fine_tuned.py:135), and that conversion raises. An id that is not found raises already in the membership test.
- The same generator raises as soon as the pool holds an integer rather than a text: `tokenizer.encode` of an integer raises `TypeError` in a fast tokenizer and `ValueError` in a slow one (backend/lll_fine_tuned.py:41-45).

## Model

| member | source | states |
|---|---|---|
| RtaRules.PickOrderShape | webapp/lib/rta-rules.ts:13-20 | The pick order has six rounds alternating between the players, starting with A; each player picks five, ten in all |
| RtaRules.CountOfRounds | webapp/lib/rta-rules.ts:76-81 | The per-player sum `isValidPickOrder` computes over an order's entries is that player's number of picks |
| RtaRules.PickOrderIsValid | webapp/lib/rta-rules.ts:76-81 | `isValidPickOrder` accepts the official order and its mirror for a first-picking B |
| RtaRules.SwappedCounts | webapp/lib/rta-rules.ts:76-81 | Swapping the players of an order trades the two players' counts |
| RtaRules.SwappedPicks | webapp/app/draft/page.tsx:96-100 | Swapping the players gives each player the other's picks and keeps the total |
| RtaRules.TurnInfoShape | webapp/lib/rta-rules.ts:91-114 | The turn lookup fails exactly outside the six rounds; otherwise the turn is the index plus one and the player is the adjusted order's |
| RtaRules.PicksRemainingTable | webapp/lib/rta-rules.ts:103-114 | The picks remaining, round by round, are 4, 4, 0, 0, -4, -4 whoever picks first |
| RtaRules.PushIf | webapp/lib/rta-rules.ts:141-171 | Pushing an error when a check fails adds exactly that error and keeps the list free of repeats |
| RtaRules.ValidateDraftState | webapp/lib/rta-rules.ts:141-176 | The loop of checks returns exactly the specified error list, and the verdict is valid iff that list is empty |
| RtaRules.SharedPicksIff | webapp/lib/rta-rules.ts:150-153 | The duplicate check finds something iff some pick of A is also in B's list |
| RtaRules.ValidIff | webapp/lib/rta-rules.ts:141-176 | A state is valid iff both teams have at most five picks and are disjoint, and, after the pick phase, each side bans at most one monster, chosen from the other team |
| RtaRules.PickErrorsIff | webapp/lib/rta-rules.ts:141-153 | Each pick error is reported iff its own condition holds, only pick errors are reported, and none twice |
| RtaRules.BanErrorsIff | webapp/lib/rta-rules.ts:156-171 | Each ban error is reported iff it is past the pick phase and its condition holds; earlier errors are kept and none is repeated |
| RtaRules.ErrorReportedIff | webapp/lib/rta-rules.ts:141-176 | Each of the seven errors is reported iff its check fails, and at most once |
| RtaRules.PickPhaseIgnoresBans | webapp/lib/rta-rules.ts:156-171 | In the pick phase the ban lists do not affect the verdict |
| RankUtils.IndexOfRank | webapp/lib/rank-utils.ts:55-80 | `ranks.indexOf(rank)` finds each rank at its own position: the ladder lists every rank once |
| RankUtils.VictoryPointsToRank | webapp/lib/rank-utils.ts:27-48 | A rank is returned iff points are given |
| RankUtils.RankFormula | webapp/lib/rank-utils.ts:27-48 | The bracket chain is the formula: below 1000 Beginner, from 3400 Legend, otherwise the rank at position `(vp - 1000) / 200 + 1` |
| RankUtils.MinVPFormula | webapp/lib/rank-utils.ts:88-119 | The least points of the rank at position i is 0 for Beginner, else 800 + 200·i |
| RankUtils.RankRoundTrip | webapp/lib/rank-utils.ts:27-48 | Converting a rank's least points back gives the same rank |
| RankUtils.RankMonotone | webapp/lib/rank-utils.ts:27-48 | More points never give a lower rank |
| RankUtils.RankBrackets | webapp/lib/rank-utils.ts:27-48 | Non-negative points are at least their rank's least points and, below Legend, less than the next rank's |
| RankUtils.NextRankShape | webapp/lib/rank-utils.ts:55-80 | No rank is followed by Beginner, Legend by nothing, and every other rank by the next entry of the ladder |
| RankUtils.LastRank | webapp/lib/rank-utils.ts:75-80 | Legend is the only rank without a next rank |
| RankUtils.NextRankGap | webapp/lib/rank-utils.ts:88-119 | The next rank needs 1000 more points after Beginner and 200 more after any other rank |
| RankUtils.FormatShape | webapp/lib/rank-utils.ts:126-147 | No rank displays as "Non renseigné"; a rank displays as the diamond, a space and its name; different ranks display differently |
| Catalogue.LoadedMonsters | webapp/lib/monsters.ts:79-119 | Loading gives one normalised record per raw record, in order; an object without a `monstres` list gives none |
| Catalogue.CategorieIsNatPlusStars | webapp/lib/monsters.ts:79-119 | The special cases of `getCategorie` agree with the general rule: the category is always "Nat" and the number of stars |
| Catalogue.ElementMapShape | webapp/lib/monsters.ts:79-119 | The element map has ten keys and maps both spellings of each English element to the same French element |
| Catalogue.NormalizeShape | webapp/lib/monsters.ts:79-119 | A normalised record has a non-empty name, a non-zero id, non-zero stars, and a category naming those stars; a known English element becomes French |
| Catalogue.FilterMonstersIff | webapp/lib/monsters.ts:145-162 | A monster is kept iff it is in the list and passes every criterion that is set; the result keeps the list's order |
| Catalogue.EmptyFiltersKeepAll | lib/monsters.ts:52-81 | With no criterion set, the filter returns the whole list |
| Catalogue.IndexById | webapp/lib/monsters.ts:170-172 | The position found holds the id and no earlier position does; -1 iff no monster has the id |
| Catalogue.FindMonsterById | lib/monsters.ts:86-88 | Nothing iff no monster has the id; otherwise the first monster with it |
| Catalogue.IndexByNameAndElement | webapp/lib/monsters.ts:177-185 | The position found matches the name, ignoring case, and the element, and no earlier one does; -1 iff none matches |
| Catalogue.FindMonsterByNameAndElement | lib/monsters.ts:93-101 | Nothing iff no monster matches; otherwise the first match |
| Catalogue.GetMonsterStats | webapp/lib/monsters.ts:190-204 | The counting loop gives exactly the statistics function's total and three dictionaries |
| Catalogue.StatsSumToTotal | lib/monsters.ts:106-121 | Each dictionary's counts add up to the number of monsters |
| Catalogue.StatsCountElement | webapp/lib/monsters.ts:190-204 | An element is a key iff some monster has it, and its count is the number of monsters with that element |
| Catalogue.StatsCountCategorie | webapp/lib/monsters.ts:190-204 | A category is a key iff some monster has it, and its count is the number of monsters in that category |
| Catalogue.StatsCountStars | webapp/lib/monsters.ts:190-204 | A number of stars is a key iff some monster has it, and its count is the number of monsters with that many stars |
| MonstersRoute.GetImageUrlShape | webapp/app/api/monsters/route.ts:65-71 | No URL iff the file name is missing or empty; an `http` address is kept; any other name becomes a local images path |
| MonstersRoute.ApiRecordIsNormalized | webapp/app/api/monsters/route.ts:73-90 | The route's record is the loader's normalised record with only the image URL rewritten |
| MonstersRoute.RouteMonstersShape | webapp/app/api/monsters/route.ts:73-90 | One record per raw record, in order; a missing or zero id becomes the position plus one |
| MonstersRoute.Get | webapp/app/api/monsters/route.ts:31-103 | Status 200 with the mapped records iff the file is present, non-empty and parses; otherwise status 500, no records and an error message |
| ConvertMonsters.ConvertShape | scripts/convert-monsters.js:47-62 | The script keeps the id as is, takes `name` when given and never leaves the name empty, translates only capitalised English elements, defaults the stars to five, and builds the remote image URL iff a file name is given |
| ConvertMonsters.ScriptMissesLowerCase | scripts/convert-monsters.js:13-19 | The script's element names are a subset of the loader's, missing exactly the five lower-case ones |
| ConvertMonsters.LowerCaseElementsKept | scripts/convert-monsters.js:13-19 | A name the loader translates but the script does not is kept as it is by the script and translated to a French element by the loader |
| ConvertMonsters.CapitalisedElementsAgree | scripts/convert-monsters.js:13-19 | On a capitalised English name the script and the loader give the same element |
| ConvertMonsters.CountConverted | scripts/convert-monsters.js:96-107 | The statistics loop gives exactly the specified counts by element and by category |
| ConvertMonsters.ScriptStatsSum | scripts/convert-monsters.js:96-107 | The counts by element and by category each add up to the number of converted monsters |
| BoxPage.Without | webapp/app/box/page.tsx:104-112 | An id is left iff it was in the box and differs from the removed one |
| BoxPage.ToggleMembers | webapp/app/box/page.tsx:104-112 | After a toggle the id is in the box iff it was not before; every other id's membership is unchanged |
| BoxPage.ToggleShape | webapp/app/box/page.tsx:104-112 | Adding puts the id at the end; removing drops every occurrence of it and keeps the rest in order |
| BoxPage.WithoutAbsent | webapp/app/box/page.tsx:104-112 | Removing an id the box does not hold changes nothing |
| BoxPage.ToggleTwiceAbsent | webapp/app/box/page.tsx:104-112 | Toggling an absent id twice gives back the box |
| BoxPage.ToggleTwicePresent | webapp/app/box/page.tsx:104-112 | Toggling a present id twice removes its duplicates and moves it to the end |
| BoxPage.ToggleKeepsOthers | webapp/app/box/page.tsx:104-112 | Apart from the toggled id, the box is the same before and after |
| BoxPage.WithIdsShape | webapp/app/box/page.tsx:57-60 | Every record gets a non-zero id, only the id changes, and a non-zero id is kept |
| BoxPage.RouteRecordsKeepIds | webapp/app/box/page.tsx:57-60 | The route's records already have non-zero ids, so the page's fallback changes none |
| BoxPage.FilteredMonstersIff | webapp/app/box/page.tsx:162-175 | A monster is shown iff it is loaded and passes the search and the three selectors; the list keeps the catalogue's order |
| BoxPage.NoFilterShowsAll | webapp/app/box/page.tsx:162-175 | With an empty search and every selector on "all", the whole catalogue is shown |
| DraftPage.AdjustedPickOrderShape | webapp/app/draft/page.tsx:96-100 | The adjusted order is the official order when A picks first and its mirror when B does; it keeps five picks each |
| DraftPage.TurnFromShape | webapp/app/draft/page.tsx:103-146 | The round search returns the first round whose running total of picks exceeds the picks made |
| DraftPage.CurrentTurnShape | webapp/app/draft/page.tsx:103-146 | The turn in progress exists iff it is the pick phase with fewer than ten picks; it is then the first round whose running total exceeds the picks made |
| DraftPage.CurrentTurnInfo | webapp/app/draft/page.tsx:103-146 | The page's loop over the rounds returns exactly the specified turn |
| DraftPage.FindTurn | webapp/app/draft/page.tsx:115-145 | The loop over any order's rounds, keeping the running total of picks, returns the first round whose running total exceeds the picks made |
| DraftPage.PickRefusals | webapp/app/draft/page.tsx:148-196 | A pick is refused, leaving the state unchanged, outside the pick phase, out of turn, for a monster not in A's box, for a monster already picked, or when the player's team is full |
| DraftPage.PickAcceptedCanPick | webapp/lib/rta-rules.ts:121-127 | A pick the page takes satisfies the rule's `canPickMonster` on the teams before it and violates it after |
| DraftPage.PickAccepted | webapp/app/draft/page.tsx:148-196 | A pick that changes the state was in phase, in turn and of an unpicked monster; it appends the monster to the acting player's team, changes nothing else, and opens the ban phase iff both teams have five |
| DraftPage.BanIff | webapp/app/draft/page.tsx:253-276 | A ban changes the state iff it is the ban phase, the player has not banned, and the monster is on the other team; the second ban completes the draft |
| DraftPage.InitialConsistent | webapp/app/draft/page.tsx:148-276 | The initial state is consistent |
| DraftPage.PickKeepsConsistent | webapp/app/draft/page.tsx:148-196 | A pick request keeps teams of at most five with no monster twice |
| DraftPage.BanKeepsConsistent | webapp/app/draft/page.tsx:253-276 | A ban request keeps each side to at most one ban, taken from the other team |
| DraftPage.PickFollowsOrder | webapp/app/draft/page.tsx:148-196 | An accepted pick is made by the owner of the next slot of the adjusted order, so the teams keep following that order |
| DraftPage.OwnerPickFollowsOrder | webapp/app/draft/page.tsx:96-146 | One more pick by the owner of the next slot, and none by the other player, keeps the teams following the order |
| DraftPage.SelectFirstFollowsOrder | webapp/app/draft/page.tsx:245-251 | Choosing the first player before any pick keeps the teams following the order |
| DraftPage.BanFollowsOrder | webapp/app/draft/page.tsx:253-276 | A ban keeps the order invariant |
| DraftPage.ConsistentIsValid | webapp/lib/rta-rules.ts:141-176 | Every state the page keeps consistent passes `validateDraftState` |
| DraftPage.Page.constructor | webapp/app/draft/page.tsx:148-276 | The page starts from the initial draft state over the given box |
| DraftPage.Page.SelectFirstPlayer | webapp/app/draft/page.tsx:245-251 | Choosing the first player changes only that field of the state |
| DraftPage.Page.HandleAddPick | webapp/app/draft/page.tsx:148-196 | The new state is the specified pick transition of the old one; the box is unchanged |
| DraftPage.Page.HandleAddBan | webapp/app/draft/page.tsx:253-276 | The new state is the specified ban transition of the old one; the box is unchanged |
| DraftPage.MonstersMap | webapp/app/draft/page.tsx:63-75 | The map's keys are exactly the records' ids, and each key holds the last record of the list with that id |
| DraftPage.ValuesByKeyEntries | webapp/app/draft/page.tsx:223-243 | `Object.values` lists the map's record for each key, in increasing order of key |
| DraftPage.ValuesByKeyIncreasing | webapp/app/draft/page.tsx:223-243 | The values are listed by strictly increasing id |
| DraftPage.ValuesByKeyMembers | webapp/app/draft/page.tsx:223-243 | A record is among the values iff it is the map's record for its id |
| DraftPage.Records | webapp/app/draft/page.tsx:199-220 | The records of a list of ids skip the ids without a record and keep order |
| DraftPage.AvailableForAIff | webapp/app/draft/page.tsx:199-220 | A record is offered to A iff it is the catalogue's record for an id of A's box that is on neither team and it passes the filters |
| DraftPage.AvailableForBIff | webapp/app/draft/page.tsx:223-243 | A record is offered to B iff it is the catalogue's record for its id, that id is on neither team, and it passes the filters |
| DraftPage.FinalTeamIff | webapp/app/draft/page.tsx:350-355 | A final team keeps, in pick order, exactly the picks the opponent did not ban |
| DraftPage.CompletedTeamsHaveFour | webapp/app/draft/page.tsx:350-355 | In a completed consistent draft each final team has four monsters |
| DraftHistory.LoadHistory | webapp/lib/draft-data-collector.ts:51-65 | A missing or unreadable file reads as the empty history; a readable one as its drafts |
| DraftHistory.DraftStore.constructor | webapp/lib/draft-data-collector.ts:51-65 | The store starts over the given file |
| DraftHistory.DraftStore.SaveDraft | webapp/lib/draft-data-collector.ts:88-108 | A successful write stores the loaded history with the stamped draft appended; a failed one leaves the file unchanged |
| DraftHistory.SaveAppends | webapp/lib/draft-data-collector.ts:88-108 | Saving keeps every earlier readable record in place and adds exactly one at the end; over an unreadable file only the new draft remains |
| DraftHistory.DraftsByDateRangeIff | webapp/lib/draft-data-collector.ts:120-129 | A draft is kept iff its date parses and lies between the bounds, both included; the order is kept |
| DraftHistory.DraftsWithMonsterIff | webapp/lib/draft-data-collector.ts:134-145 | A draft is kept iff the monster is in one of its two pick lists or one of its two final teams; the order is kept |
| DraftHistory.CsvRow | webapp/lib/draft-data-collector.ts:155-181 | A draft's row has one field per header column |
| DraftHistory.HeaderPlain | webapp/lib/draft-data-collector.ts:155-181 | The header line has no line break and splits back into the nine column names |
| DraftHistory.IdsFieldRoundTrip | webapp/lib/draft-data-collector.ts:155-181 | Splitting a non-empty ids field on semicolons gives back the ids' texts |
| DraftHistory.CsvRowRoundTrip | webapp/lib/draft-data-collector.ts:155-181 | Splitting a draft's line on commas gives its nine fields back, when no id or timestamp holds a separator |
| DraftHistory.CsvLinesPlain | webapp/lib/draft-data-collector.ts:155-181 | No line of the CSV text holds a line break |
| DraftHistory.CsvRoundTrip | webapp/lib/draft-data-collector.ts:150-185 | Splitting the CSV text on line breaks gives the header line and then one line per draft, in order |
| DraftHistory.CsvLineCount | webapp/lib/draft-data-collector.ts:155-181 | The CSV text has exactly as many line breaks as drafts |
| DraftHistory.ExportFormats | webapp/lib/draft-data-collector.ts:150-185 | "csv" gives the CSV text; any other format gives the JSON text |
| LlmPrompt.UnnamedLabel | webapp/lib/llm-prompt.ts:70-79 | The label of an unnamed monster starts with "Monstre ID " |
| LlmPrompt.GetDisplayName | webapp/lib/llm-prompt.ts:70-79 | The given name at the index when there is one, else the id's label |
| LlmPrompt.DisplayNames | webapp/lib/llm-prompt.ts:84-118 | One display name per id, each looked up at its own position |
| LlmPrompt.FinalNames | webapp/lib/llm-prompt.ts:155-168 | As many names as the final team has monsters |
| LlmPrompt.BanBlock | webapp/lib/llm-prompt.ts:120-144 | The ban block is empty iff the draft is not in the ban phase |
| LlmPrompt.CompletedBlock | webapp/lib/llm-prompt.ts:145-171 | The final-analysis block is empty iff the draft is not completed |
| LlmPrompt.ContextParts | webapp/lib/llm-prompt.ts:42-175 | The context holds the turn line with the turn plus one, both team blocks, and the ban and final blocks of their phases |
| LlmPrompt.DisplayNameAvoidsBreak | webapp/lib/llm-prompt.ts:70-79 | A display name has no line break when the given names have none |
| LlmPrompt.TeamBlockLines | webapp/lib/llm-prompt.ts:84-118 | A non-empty team's block splits on line breaks into exactly its numbered pick lines, each naming the pick at that position |
| LlmPrompt.FinalNamesByLabel | webapp/lib/llm-prompt.ts:155-168 | Naming from the first position of the id gives each kept pick its own name when names are a function of the id |
| LlmPrompt.CompletedListsFour | webapp/lib/llm-prompt.ts:145-171 | In a completed consistent draft each final list names four monsters |
| LlmPrompt.AvailableTextTruncates | webapp/lib/llm-prompt.ts:202-206 | Up to fifty names the text is the whole list; beyond fifty only the first fifty count, followed by "..." |
| LlmPrompt.AvailableTextCount | webapp/lib/llm-prompt.ts:217-221 | With no comma in the names, the text names exactly min(n, 50) monsters |
| LlmPrompt.PromptHoldsContext | webapp/lib/llm-prompt.ts:181-260 | The user prompt holds the draft context |
| LlmPrompt.PromptHoldsInstructions | webapp/lib/llm-prompt.ts:181-260 | The user prompt holds the phase's instructions |
| LlmPrompt.PromptHoldsAvailable | webapp/lib/llm-prompt.ts:197-227 | In the pick phase with a non-empty box, the prompt holds the list of available names |
| LlmPrompt.InstructionsIgnoreList | webapp/lib/llm-prompt.ts:196-241 | The ban and final instructions depend on neither the first-pick flag nor the list |
| LlmPrompt.FirstPickTurn | webapp/lib/llm-prompt.ts:483-487 | On the first pick the page's turn lookup gives turn one, player A, and a round of one pick |
| LlmPrompt.AvailableMonsterNamesIff | webapp/lib/llm-prompt.ts:490-502 | A name is offered iff it is the pick phase, it labels a monster of the box, and it does not contain "Monstre ID"; picked monsters are not removed |
| LlmPrompt.UnknownIdNotOffered | webapp/lib/llm-prompt.ts:496-498 | The label of an id without a catalogue record is never offered |
| LlmPrompt.RecommendationNamesLabel | webapp/lib/llm-prompt.ts:436-451 | With names built from the catalogue, every entry of a list is its id's label |
| OracleInput.ListTimesAll | backend/my_model.py:5-6 | Every entry of `[x] * n` is x |
| OracleInput.PadListShape | backend/my_model.py:5-6 | A padded roster has exactly the target length: the roster's first ids, then the filler id |
| OracleInput.PadListTruncates | backend/my_model.py:5-6 | A roster at least as long as the target keeps only its first ids |
| OracleInput.LookupAll | backend/my_model.py:14-16 | The lookup fails iff some id has no index, with KeyError for the first such id; otherwise it gives each id's index, in order |
| OracleInput.HotVectorShape | backend/my_model.py:17-23 | A multi-hot vector has `dim` entries, each 0 or 1, and is 1 exactly at the slots the indices set |
| OracleInput.HotVectorDependsOnSlots | backend/my_model.py:17-23 | Order and repetition of the indices do not matter, only the slots they set |
| OracleInput.MultiHot | backend/my_model.py:17-23 | Setting the ones fails iff an index is out of range; otherwise it gives the specified vector |
| OracleInput.Predict | backend/my_model.py:9-29 | `predict` returns the score of the encoded rosters, or the error encoding raises |
| OracleInput.EncodeInputShape | backend/my_model.py:9-29 | The input is two halves of `dim` entries, each 1 exactly at the indices of its padded roster |
| OracleInput.SlotSetOfIds | backend/my_model.py:14-23 | The slots set by a list of ids depend only on the set of ids |
| OracleInput.EncodeIgnoresRosterOrder | backend/my_model.py:9-29 | Two rosters of at most four ids with the same length and the same ids give the same input |
| OracleInput.EncodeDropsExtraIds | backend/my_model.py:5-6 | Ids after the fourth are never read |
| PairContext.CombinationsCount | backend/main.py:72 | There are n(n-1)/2 pairs |
| PairContext.CombinationsComplete | backend/main.py:72 | Every pair of positions i < j is listed |
| PairContext.CombinationsSound | backend/main.py:72 | Only pairs of positions i < j are listed |
| PairContext.SampleSizeCases | backend/main.py:73 | From three monsters on, as many pairs as monsters are scored; with fewer, every pair is |
| PairContext.SamplePositions | backend/main.py:76-78 | `random.sample` gives k distinct positions below m |
| PairContext.InsertKeepsSorted | backend/main.py:81 | Insertion keeps a list sorted by probability and is a permutation |
| PairContext.InsertStable | backend/main.py:81 | The inserted entry comes before the entries of equal probability already there |
| PairContext.SortByProbaCorrect | backend/main.py:81 | The sort orders by probability and is a permutation of its input |
| PairContext.SortByProbaStable | backend/main.py:81 | Entries of equal probability keep their original relative order |
| PairContext.ScorePairsShape | backend/main.py:76-78 | One score per sampled pair, in sample order, each naming its pair |
| PairContext.LinesShape | backend/main.py:83-86 | One line per score, in order, naming both monsters; it fails iff an id is missing from the catalogue |
| PairContext.ScoreSample | backend/main.py:76-78 | The scoring loop gives exactly the specified scores |
| PairContext.BuildLines | backend/main.py:83-86 | The line-building loop gives exactly the specified lines |
| PairContext.NeuralNetContext | backend/main.py:64-87 | The answer is the header and the sorted lines of the sampled pairs, together with the sample |
| PairContext.LinesNoBreak | backend/main.py:83-86 | No line has a line break when no name and no rendered probability has one |
| PairContext.ContextLineCount | backend/main.py:64-87 | The answer holds exactly one line break per scored pair, so one line per pair under the header |
| FineTuned.SpaceTerminatedIsJoin | backend/lll_fine_tuned.py:18-25 | Trailing spaces with the last one removed is the join on spaces |
| FineTuned.MarkEach | backend/lll_fine_tuned.py:18-24 | The `+=` loop builds each marked id followed by a space |
| FineTuned.BuildPrompt | backend/lll_fine_tuned.py:13-27 | The prompt is the fixed opening, A's marked ids each followed by a space, the separator, B's marked ids joined by spaces, and the question |
| FineTuned.Step | backend/lll_fine_tuned.py:61-122 | A marker token opens a new span; the loop stops only on the end token in free mode; otherwise one token is appended; a forced token is at the span's offset of a remaining candidate, a forced step with no candidate fails, and closing a span deletes exactly the candidates it spells |
| FineTuned.RunBounds | backend/lll_fine_tuned.py:61-122 | The loop keeps the tokens so far as a prefix, adds at most one token per iteration, and keeps its invariant: the span buffer matches the budget and the remaining candidates are a sub-map of the pool's encodings |
| FineTuned.DeleteMatching | backend/lll_fine_tuned.py:105-110 | Exactly the candidates whose encoding equals the span are deleted |
| FineTuned.PickEncodings | backend/lll_fine_tuned.py:41-45 | Encoding the pool fails, with the encoding error, iff some pool element is an integer; otherwise it has exactly one entry per pool element |
| FineTuned.ConstrainedDecode | backend/lll_fine_tuned.py:41-122 | An integer in the pool raises the encoding error; otherwise the decoding loop gives the tokens, or the error, of the specified step function run for the loop's bound from the encoded pool |
| FineTuned.StripLeft | backend/lll_fine_tuned.py:123-125 | The result is a suffix of the input that does not start with a character of the given white-space set (that of `str.strip()` or of `int()`) |
| FineTuned.StripRight | backend/lll_fine_tuned.py:123-125 | The result is a prefix of the input that does not end with a character of the given white-space set (that of `str.strip()` or of `int()`) |
| FineTuned.RemoveMarkers | backend/lll_fine_tuned.py:123-125 | The result has no "M" |
| FineTuned.ExtractIds | backend/lll_fine_tuned.py:123-125 | It fails iff the generated text does not contain the question; otherwise it gives at least one piece, none holding a space or an "M" |
| FineTuned.Accept | backend/lll_fine_tuned.py:129-136 | An id raises iff `int()` cannot read it (it reads an optional sign and digit groups joined by single underscores, digits of any script, at most 4300 digits, with `int()`'s white space around); it is accepted iff its text or its value names a usable element, which is then discarded |
| FineTuned.MatchExtracted | backend/lll_fine_tuned.py:129-136 | The repair loop gives exactly the specified repair result |
| FineTuned.AcceptKeepsInvariant | backend/lll_fine_tuned.py:129-136 | One accepted id keeps the matches distinct, drawn from the pool, and disjoint from the usable set |
| FineTuned.RepairKeepsInvariant | backend/lll_fine_tuned.py:129-136 | The repair loop accepts each pool element at most once and only ids naming a pool element |
| FineTuned.ParseIntToString | backend/lll_fine_tuned.py:132-136 | `int()` reads back every integer as Python writes it when it has at most 4300 digits, and refuses a longer one, so ids written from a pool value within the limit never raise |
| FineTuned.SeparatorsStripped | backend/lll_fine_tuned.py:125 | `strip()` removes the separators U+001C to U+001F beside a digit |
| FineTuned.SeparatorsNotIntSpace | backend/lll_fine_tuned.py:132-135 | `int()` does not: a digit next to one of these separators cannot be read |
| FineTuned.IntSpaceIgnored | backend/lll_fine_tuned.py:132-135 | The white space `int()` accepts is ignored on either side of a digit |
| FineTuned.SeparatorIdRaises | backend/lll_fine_tuned.py:129-136 | An id whose digit is followed by a separator U+001C to U+001F makes the repair raise ValueError, even when the digit alone names a usable element |
| FineTuned.UnderscoreJoinsGroups | backend/lll_fine_tuned.py:132-136 | `int()` ignores an underscore between two digits, with or without a sign |
| FineTuned.MisplacedUnderscores | backend/lll_fine_tuned.py:132-136 | `int()` rejects an underscore at either end, two in a row, and one right after the sign |
| FineTuned.ScriptDigits | backend/lll_fine_tuned.py:132-136 | `int()` reads Arabic-Indic digits, alone and after an ASCII digit |
| FineTuned.RepairFailsIffNonNumeric | backend/lll_fine_tuned.py:129-136 | The repair loop raises iff `int()` cannot read some extracted id |
| FineTuned.RepairEmptyPool | backend/lll_fine_tuned.py:129-136 | With nothing usable nothing is accepted |
| FineTuned.Sample | backend/lll_fine_tuned.py:148-154 | `random.sample` gives k distinct usable elements, or ValueError iff there are fewer than k |
| FineTuned.Answer | backend/lll_fine_tuned.py:139-154 | The answer follows the policy: two accepted ids; one alone in a single-pick phase; otherwise completed by random usable elements |
| FineTuned.AnswerShape | backend/lll_fine_tuned.py:139-154 | After a successful repair every answer holds one or two distinct picks, each a pool element or a text naming one |
| FineTuned.PredictNextMonsters | backend/lll_fine_tuned.py:1-154 | The call's answer is the error of generation, extraction or repair, or else the policy applied to the ids matched from the generated text |
| FineTuned.IntPoolRaises | backend/lll_fine_tuned.py:41-45 | A pool holding an integer id makes the whole call raise the encoding error, whatever the model generates |
| FineTuned.PredictionShape | backend/lll_fine_tuned.py:29-154 | A missing or empty pool always ends in an error, and a pool holding an integer in the encoding error; every answer holds one or two distinct picks, each a pool element or a text naming one |

## Left out

- File system, network and HTTP are parameters of the model: the history file is a value of the store, a write's success is a parameter, and the route receives what reading the catalogue file gave. Fetching the catalogue from the pages is not modelled.
- The language model, the tokenizer, softmax, temperature and multinomial sampling are function parameters. The forced-step choice must be one of the allowed tokens. Greedy next-token choice is a function of the context.
- The network of my_model.py is a parameter: its layers, logits, sigmoid and calibration are not modelled, only the encoding of its input and the error cases.
- `random.sample` is a nondeterministic choice of distinct elements. Nothing about its distribution is modelled.
- Date parsing (`new Date`) and `JSON.stringify` are parameters of the history queries and of the export. The export's metadata block and anonymisation are not modelled.
- The Gemini client, `callLLM` and the recommendation route are not part of this model. Only the prompt text built for them is modelled.
- The FastAPI application, model loading, the debug prints and the unused `allowed_picks` of the Python back ends are not modelled. The pool is encoded twice with the same result (`pick_token_available_ids` and `pick_token_ids`); the model encodes it once.
- FineTuned.ConstrainedDecode and FineTuned.RunBounds: the decoding loop is bounded by the source's step count. Tensor shapes and the attention mask are not modelled, and tokens are plain integers.
- Victory points are integers: fractional points and `NaN` are not modelled.
- `toLowerCase` is modelled for ASCII letters only.
- FineTuned.ParsePyInt: the digits of other scripts are those of Unicode 15.0, given as the first code point of every run of ten decimal digits. The limit on the number of digits is CPython's default of 4300 (Python 3.11 and later); a limit changed with `sys.set_int_max_str_digits` or `PYTHONINTMAXSTRDIGITS`, and the absence of a limit in older versions, are not modelled.
- FineTuned.PyStrOf: `str()` of an integer id is written whatever its length, while CPython 3.11 and later raise ValueError beyond 4300 digits; that error of the prompt building is not modelled.
- DraftPage.PickAcceptedCanPick: the rules take ids of type `string | number` and compare them with `includes`, where "5" and 5 differ. The model's ids are integers, so it cannot express a pick given as a string.
- DraftPage.ValuesByKeyEntries: `Object.values` orders integer-like keys ascending; the JavaScript order for negative ids, which follow insertion order, is not modelled.
- DraftPage.Page.HandleAddPick: the tests run on the state the handler sees and the update on the same state. The stale-closure race between two rapid clicks is not modelled.
- The option lists of the box page's selectors (webapp/app/box/page.tsx:177-179) and all rendering are not modelled.
- LlmPrompt.BuildUserPrompt does not take the names argument that the source's `buildUserPrompt` ignores.
- The webapp's database routes, authentication, the dashboard, the profile and the other pages are outside the modelled core.
