# Call of Cthulhu campaign backend — a Dafny model of its core

This project models the rules and bookkeeping at the heart of a Call of
Cthulhu play-by-post system, and proves properties of them:

- **Skill checks** (`SkillCheck`, skill_check.py). The keeper service finds
  skill checks in the players' actions through trigger phrases. Each check's
  difficulty comes from the wording of the action. The character's skill
  value is looked up, falling back to a specialisation or a default. A d100
  roll is then graded into the six success levels of the rules.
- **Context assembly** (`ContextAssembly`, context_assembly.py). This builds
  the bundle sent to the keeper for one turn:
  - the realm, campaign, chapter and scene it belongs to;
  - the pacing phase, taken from the number of completed turns;
  - the last five earlier turns, oldest first;
  - each character's positive skills, point pools, conditions and
    backstory digest;
  - the NPCs of the scene.
- **Turn routes** (`TurnRoutes`, routes_turns.py). A turn's life cycle runs:
  created as a draft, edited or deleted while a draft, submitted, then
  completed by the keeper's reaction. Each route also keeps the scene's list
  of turn ids in step.
- **Transitions** (`Transition`, transition.py). The service reads the
  keeper's request to end a scene or a chapter. It closes the current
  records with a derived summary, creates their successors and links them
  into the parent lists. A new scene starts with no participants: the
  source's attempt to carry them over writes to a temporary copy of the
  scene.
- **Records and store** (`Records`, `Store`, models.py). These are the
  stored documents and their defaults. The database is modelled as one
  mutable store, and consistency is kept between the collections and the
  back-reference lists. Each collection is a map keyed by the document's
  own id, as `_id` is in the database. The queries over the turn
  collection (`find`) rely on that key to return each stored turn once.
- **The language-model service** (`Llm`, llm.py). This covers everything
  except the HTTP call:
  - reading numbered milestones from the reply;
  - the fallback texts;
  - the event and scene lines that the summary prompts are built from.
- **Web client** (`DiceRoller`, `GameSession`, `Speech`):
  - the dice roller for expressions such as "2D6+1D4-2", and percentile
    dice with bonus and penalty dice;
  - the session store that tracks the selection flow (player, world, realm,
    campaign, characters, session);
  - the narration hook that picks a voice and speaks text from an offset.

Generated ids, clocks and random draws are parameters. The model's reply is
also a parameter, `None` when the call failed. State that the source
updates in place is a class (`Store.GameStore`, `GameSession.SessionStore`,
`Speech.Narrator`). Each method of such a class is specified by a function
of the old state. The lemmas are about those functions.

Where the source and its design notes disagree, the model follows the
source. For instance:
- a new scene gets no participants;
- the `Dodge` default is a function rather than a number, so rolling a
  Dodge check for a character without the skill fails.

There is one exception: a turn whose reaction is stored as null. As written, the
scene summary then raises (see Findings). `Llm.SummarizeScene` and
`Llm.DescribeTurns` follow the evidently intended reading, in which a null
reaction means no reaction. `Llm.TurnPartsAsWritten` models the code as
written.

The percentile roller `DiceRoller.RollPercentDice` is modelled as written.
The way its bonus and penalty dice treat a result of 100 is a finding, and
`DiceRoller.CorrectedPercentOf` is the corrected definition beside it.

## Model

| member | source | states |
|---|---|---|
| SkillCheck.SuccessFlagMatchesLevel | backend/app/services/skill_check.py:307-341 | the success flag is true exactly for the four success levels, for any thresholds |
| SkillCheck.CriticalAndFumbleFirst | backend/app/services/skill_check.py:320-326 | 01 is always a critical success and 96-100 always a fumble, even for skills of 96 and over |
| SkillCheck.SuccessIff | backend/app/services/skill_check.py:320-341 | a check succeeds iff the roll is 01, or is under 96 and at most the skill |
| SkillCheck.LevelBands | backend/app/services/skill_check.py:226-234 | for rolls 02-95 the level is fixed by the band: at most a fifth (extreme), at most half (hard), at most all (regular) |
| SkillCheck.LowerRollNoWorse | backend/app/services/skill_check.py:320-341 | within 02-95 a lower roll never grades worse |
| SkillCheck.HigherSkillNoWorse | backend/app/services/skill_check.py:226-234 | a higher skill never grades the same roll worse |
| SkillCheck.AnyContained | backend/app/services/skill_check.py:169-172 | true iff some phrase occurs in the text |
| SkillCheck.DifficultyIgnoresCase | backend/app/services/skill_check.py:160-166 | the difficulty is the same for any casing of the text |
| SkillCheck.DifficultyPrecedence | backend/app/services/skill_check.py:166-183 | an extreme phrase beats any hard phrase, a hard phrase beats none, otherwise regular |
| SkillCheck.AnyWord | backend/app/services/skill_check.py:140-141 | true iff some alternative occurs as a whole word |
| SkillCheck.FiresIgnoresCase | backend/app/services/skill_check.py:96-99 | a trigger fires independently of the text's case |
| SkillCheck.CharMap | backend/app/services/skill_check.py:119 | the id map stores every character under its own id |
| SkillCheck.CharMapKeys | backend/app/services/skill_check.py:119 | the map's keys are exactly the characters' ids |
| SkillCheck.CharMapLastWins | backend/app/services/skill_check.py:119 | with duplicate ids the last character wins |
| SkillCheck.ChecksFor | backend/app/services/skill_check.py:139-151 | one check per firing trigger, in table order |
| SkillCheck.ChecksForCharacter | backend/app/services/skill_check.py:145-151 | every check of an action is for its character with the given difficulty |
| SkillCheck.ChecksForSound | backend/app/services/skill_check.py:140-151 | every check is for the skill of a trigger that fired |
| SkillCheck.ChecksForComplete | backend/app/services/skill_check.py:140-151 | every trigger that fires gives its check |
| SkillCheck.ActionChecksShape | backend/app/services/skill_check.py:121-143 | an action's checks belong to its actor, a known character, and share the difficulty of the action text |
| SkillCheck.DetectedConcat | backend/app/services/skill_check.py:121-158 | detection over two runs of actions is detection of each in turn |
| SkillCheck.DetectedFromActors | backend/app/services/skill_check.py:121-126 | every detected check names a known character that acted |
| SkillCheck.CheckTriggers | backend/app/services/skill_check.py:139-151 | the trigger loop yields exactly the specified checks of one action |
| SkillCheck.CombineText | backend/app/services/skill_check.py:128-137 | the gathered text is speak, act and ooc, those set, joined by spaces |
| SkillCheck.DetectWith | backend/app/services/skill_check.py:101-158 | the detection loop over any trigger table yields the specified checks |
| SkillCheck.DetectSkillChecks | backend/app/services/skill_check.py:101-158 | detection with the service's trigger table |
| SkillCheck.FindExact | backend/app/services/skill_check.py:269-272 | a found value belongs to a skill with the name, ignoring case, and none means there is no such skill |
| SkillCheck.FindExactFirst | backend/app/services/skill_check.py:269-272 | the value found is that of the first matching skill |
| SkillCheck.FindPrefix | backend/app/services/skill_check.py:274-278 | a found value belongs to a skill whose lower-cased name starts with the base |
| SkillCheck.FindPrefixFirst | backend/app/services/skill_check.py:274-278 | the value found is that of the first such skill |
| SkillCheck.ExactMatchWins | backend/app/services/skill_check.py:263-280 | an exact match wins over an earlier specialisation match |
| SkillCheck.PrefixFallback | backend/app/services/skill_check.py:274-280 | with no exact match the first specialisation decides; with neither the value is 0 |
| SkillCheck.LookupDefault | backend/app/services/skill_check.py:301 | the table lookup returns the entry for the name, else the fallback |
| SkillCheck.DefaultFromTable | backend/app/services/skill_check.py:282-301 | a default other than base 20 comes from the table |
| SkillCheck.RollOneSound | backend/app/services/skill_check.py:212-255 | a rolled result follows the rules and records the check's character, skill, difficulty and draw |
| SkillCheck.RolledLength | backend/app/services/skill_check.py:206-210 | at most one result per check |
| SkillCheck.RolledSound | backend/app/services/skill_check.py:201-261 | every result follows the rules, rolled 1..100, for a known character |
| SkillCheck.RolledFailsOnlyOnNeedsDex | backend/app/services/skill_check.py:215-229 | the call fails only for a known character lacking the skill whose default is not a number |
| SkillCheck.LookupNeedsDexOnly | backend/app/services/skill_check.py:284-301 | a table whose only non-number default is one name gives a non-number only for it |
| SkillCheck.OnlyDodgeNeedsDex | backend/app/services/skill_check.py:293 | only Dodge's default is not a number |
| SkillCheck.RolledFailsOnlyOnDodge | backend/app/services/skill_check.py:215-228 | the call fails only on a Dodge check of a known character with no dodge skill |
| SkillCheck.DifficultyOnlyRecorded | backend/app/services/skill_check.py:242-255 | difficulty is recorded but never changes the level rolled |
| SkillCheck.RollWith | backend/app/services/skill_check.py:185-261 | the rolling loop over any defaults table returns the specified results or error |
| SkillCheck.RollSkillChecks | backend/app/services/skill_check.py:185-261 | the rolling loop with the service's defaults table |
| SkillCheck.RolledErrStays | backend/app/services/skill_check.py:206-228 | once an error stops the call no later check changes the outcome |
| ContextAssembly.PacingPhaseOf | backend/app/services/context_assembly.py:354-374 | each phase holds exactly for its band of completed turns |
| ContextAssembly.PacingMonotone | backend/app/services/context_assembly.py:354-374 | more completed turns never move a scene to an earlier phase |
| ContextAssembly.ParseIntCases | backend/app/services/context_assembly.py:572-581 | integers pass through, numeric strings parse, everything else is 0 |
| ContextAssembly.ParseIntRoundTrip | backend/app/services/context_assembly.py:572-581 | a number written in decimal reads back unchanged |
| ContextAssembly.ParseRegIsParseInt | backend/app/services/context_assembly.py:441-450 | the inline skill parse agrees with `_parse_int` on every value |
| ContextAssembly.PositiveSkills | backend/app/services/context_assembly.py:441-450 | every skill kept has a positive value |
| ContextAssembly.PositiveSkillsIff | backend/app/services/context_assembly.py:441-450 | a skill is kept iff some sheet entry is an object whose value parses positive |
| ContextAssembly.ExtractSkills | backend/app/services/context_assembly.py:437-450 | the skill loop yields exactly the positive skills in sheet order |
| ContextAssembly.PoolStatOfStoredPool | backend/app/services/context_assembly.py:458-471 | a stored point pool reads back as its numbers |
| ContextAssembly.FlaggedLabels | backend/app/services/context_assembly.py:474-485 | only labels of the table are reported |
| ContextAssembly.FlaggedLabelsIff | backend/app/services/context_assembly.py:474-485 | with distinct labels a label is reported iff its flag is set |
| ContextAssembly.ConditionsExact | backend/app/services/context_assembly.py:474-485 | reported conditions are exactly the set flags among the five |
| ContextAssembly.NothingFlagged | backend/app/services/context_assembly.py:474-485 | no flag set, no condition |
| ContextAssembly.CollectFlagged | backend/app/services/context_assembly.py:474-485 | the condition checks append exactly the flagged labels in order |
| ContextAssembly.NoConditionsOnNewSheet | backend/app/services/context_assembly.py:474-485 | a freshly made character sheet reports no condition |
| ContextAssembly.DigestPartsBound | backend/app/services/context_assembly.py:518-530 | at most one part per field, each within its field's truncation |
| ContextAssembly.DigestPartsEmptyIff | backend/app/services/context_assembly.py:518-533 | there are no parts iff no field is set |
| ContextAssembly.DigestPartsNonEmpty | backend/app/services/context_assembly.py:518-530 | with text in every set field no part is empty |
| ContextAssembly.BackstoryDigestAbsent | backend/app/services/context_assembly.py:509-536 | the digest is absent iff none of the three fields is set |
| ContextAssembly.JoinedDigestBound | backend/app/services/context_assembly.py:535-536 | the joined parts are non-empty and at most 283 characters |
| ContextAssembly.BackstoryDigestBound | backend/app/services/context_assembly.py:509-536 | the digest is the parts joined by " \| " and never reaches the 300 cap |
| ContextAssembly.BuildCharacter | backend/app/services/context_assembly.py:434-505 | one character's context: its id, name, positive skills, pools, conditions and digest |
| ContextAssembly.Matching | backend/app/services/context_assembly.py:431 | the matching entities are those with a listed id and the kind, in stored order |
| ContextAssembly.Select | backend/app/services/context_assembly.py:431-432 | the fetch returns at most the limit, a prefix of the matches |
| ContextAssembly.FirstIds | backend/app/services/context_assembly.py:428 | the first ten ids |
| ContextAssembly.CharacterDocs | backend/app/services/context_assembly.py:422-432 | only player characters among the first ten ids are read |
| ContextAssembly.NpcDocs | backend/app/services/context_assembly.py:547-554 | only NPCs among the scene's ids are read, at most twenty |
| ContextAssembly.CharacterIdSelected | backend/app/services/context_assembly.py:431 | a fetched character keeps the id it was selected by |
| ContextAssembly.NpcIdSelected | backend/app/services/context_assembly.py:553 | a fetched NPC keeps the id it was selected by |
| ContextAssembly.CharactersOf | backend/app/services/context_assembly.py:434-507 | one context per document, in order |
| ContextAssembly.BuildCharacters | backend/app/services/context_assembly.py:434-507 | the document loop yields exactly one context per document in order |
| ContextAssembly.CharacterIdsSelected | backend/app/services/context_assembly.py:428-432 | every context's id is among the first ten selected ids |
| ContextAssembly.FetchCharacters | backend/app/services/context_assembly.py:413-507 | no ids give no characters; otherwise one context per fetched player character |
| ContextAssembly.NpcsOf | backend/app/services/context_assembly.py:556-568 | one NPC context per document, in order |
| ContextAssembly.NpcIdsSelected | backend/app/services/context_assembly.py:553 | every NPC context's id is among the scene's ids |
| ContextAssembly.FetchNpcs | backend/app/services/context_assembly.py:538-570 | at most twenty NPCs, all listed by the scene |
| ContextAssembly.FetchLore | backend/app/services/context_assembly.py:583-596 | lore retrieval returns nothing |
| ContextAssembly.CollectEarlier | backend/app/services/context_assembly.py:386-391 | the query collects exactly the earlier turns of the scene, each stored turn once, as many as there are earlier ids |
| ContextAssembly.LatestWindow | backend/app/services/context_assembly.py:389-392 | newest first, a sub-multiset of the candidates, of length min(n, candidates) |
| ContextAssembly.PrefixSelects | backend/app/services/context_assembly.py:389-392 | a prefix of a newest-first arrangement holds only candidates and leaves out none newer than its last |
| ContextAssembly.LatestWindowSelects | backend/app/services/context_assembly.py:389-392 | the window holds only candidates, and a left-out candidate is no newer than every turn of a full window |
| ContextAssembly.ReverseOfDescending | backend/app/services/context_assembly.py:397 | reversed, a newest-first sequence is oldest-first |
| ContextAssembly.ReverseMembers | backend/app/services/context_assembly.py:397 | reversing keeps exactly the same turns |
| ContextAssembly.ReversedWindow | backend/app/services/context_assembly.py:389-397 | the reversed window is chronological and holds only candidates |
| ContextAssembly.LatestWindowChronological | backend/app/services/context_assembly.py:389-397 | oldest first, only candidates, none newer than its oldest missed; a short window holds every candidate |
| ContextAssembly.ReverseInPlace | backend/app/services/context_assembly.py:397 | the array holds its old contents reversed |
| ContextAssembly.SummarizeTurns | backend/app/services/context_assembly.py:399-409 | one summary per turn, in order |
| ContextAssembly.SummariesOfWindow | backend/app/services/context_assembly.py:376-411 | summaries of the chronological window of earlier turns of the scene |
| ContextAssembly.FetchPreviousTurns | backend/app/services/context_assembly.py:376-411 | the summaries of a `LatestEarlier` selection: earlier stored turns of the scene, each once, min(5, earlier) of them, chronological, none newer left out |
| ContextAssembly.WindowIsLatest | backend/app/services/context_assembly.py:389-397 | the reversed newest-first window of the collected turns is such a selection |
| ContextAssembly.AssembleContext | backend/app/services/context_assembly.py:174-272 | a missing turn or scene id is an error; otherwise the turn's ancestors, the scene with its completed-turn count and pacing phase, the summaries of a `LatestEarlier` selection of the scene's earlier turns, characters, NPCs and lore |
| TurnOrder.Sort | backend/app/services/context_assembly.py:392 | ascending by order and a permutation of the input |
| TurnOrder.SortDescending | backend/app/services/context_assembly.py:392 | descending by order and a permutation of the input |
| TurnOrder.ReverseMultiset | backend/app/services/context_assembly.py:397 | reversing keeps the multiset of turns |
| Records.ParseCampaignStatus | backend/app/models.py:27-32 | a status parses iff it is one of the four enumeration values |
| Records.CampaignStatusExactlyFour | backend/app/models.py:27-32 | there are exactly four statuses and each reads back as itself |
| Records.DefaultTurn | backend/app/models.py:344-354 | a new turn is a draft with no actions, no reaction and no changes, under the given id, scene and order |
| Records.DefaultScene | backend/app/models.py:309-320 | a new scene is active with no turns, participants, NPCs, summary or changes |
| Records.DefaultChapter | backend/app/models.py:291-302 | a new chapter is active with no scenes, order, meta, summary or changes |
| Records.DefaultStoryArc | backend/app/models.py:88-92 | a new story arc has no chapters, milestones or tagline |
| Records.DefaultCampaign | backend/app/models.py:95-106 | a new campaign is planning, with no story arc, setting or changes |
| Records.DefaultCharacterStatus | backend/app/models.py:165-171 | every condition flag of a new status is off |
| Records.DefaultSkill | backend/app/models.py:174-178 | a new skill has empty base and value and is not marked used |
| Records.DefaultPointPool | backend/app/models.py:148-151 | a new pool has empty maximum and current values |
| Records.DefaultCombat | backend/app/models.py:192-199 | move 8, one Brawl weapon using Fighting (Brawl), empty build and damage bonus |
| Records.DefaultCharacterSheet | backend/app/models.py:235-249 | a new sheet has no skills, a clear status, the default combat block, empty pools and an empty backstory |
| Store.FindTurns | backend/app/routes_turns.py:24 | every stored turn the filter keeps, each once, as many as there are matching ids |
| TurnRoutes.FirstN | backend/app/routes_turns.py:24 | min(n, length) turns, taken from the input |
| TurnRoutes.FirstOfAscending | backend/app/routes_turns.py:24 | the first n of a sorted arrangement hold only candidates, and a left-out candidate is no older than the last kept |
| TurnRoutes.CollectQuery | backend/app/routes_turns.py:20-24 | exactly the stored turns the query matches, each once, as many as there are matching ids |
| TurnRoutes.ListTurns | backend/app/routes_turns.py:15-25 | stored turns of the query, each once, min(1000, matching) of them, ascending by order, and any left out are no older than the last |
| TurnRoutes.GetTurn | backend/app/routes_turns.py:28-35 | the stored turn with the id, or 404 exactly when there is none |
| TurnRoutes.PushTurnId | backend/app/routes_turns.py:57-61 | the push keeps every scene's id and chapter |
| TurnRoutes.PushKeepsListed | backend/app/routes_turns.py:55-61 | storing a fresh turn and listing it keeps every listed id pointing at a turn of that scene |
| TurnRoutes.CreatedConsistent | backend/app/routes_turns.py:38-63 | creating a turn under a fresh id keeps the database consistent |
| TurnRoutes.CreateTurn | backend/app/routes_turns.py:38-63 | stores a draft with one "created" entry and appends its id to its scene's list |
| TurnRoutes.ReplacedConsistent | backend/app/routes_turns.py:145 | replacing a turn by one with the same id and scene keeps consistency |
| TurnRoutes.SubmitIgnoresStatus | backend/app/routes_turns.py:71-83 | submission sets ready_for_agents whatever the old status |
| TurnRoutes.SubmitConsistent | backend/app/routes_turns.py:66-90 | 404 iff no such turn, then nothing is written; consistency is kept |
| TurnRoutes.SubmitTurn | backend/app/routes_turns.py:66-90 | the route's answer and new database are the submission outcome |
| TurnRoutes.ReactionTwice | backend/app/routes_turns.py:98-115 | a second reaction replaces the first and the audit entries accumulate |
| TurnRoutes.ReactionConsistent | backend/app/routes_turns.py:93-120 | 404 iff no such turn, then nothing is written; consistency is kept |
| TurnRoutes.AddReaction | backend/app/routes_turns.py:93-120 | the route's answer and new database are the reaction outcome |
| TurnRoutes.UpdateGuarded | backend/app/routes_turns.py:123-147 | fails exactly on a missing or non-draft turn and writes nothing then; else only actions and one audit entry change |
| TurnRoutes.UpdateTurn | backend/app/routes_turns.py:123-147 | the route's answer and new database are the update outcome |
| TurnRoutes.Without | backend/app/routes_turns.py:164-167 | `$pull` removes every occurrence and keeps the rest |
| TurnRoutes.WithoutAbsent | backend/app/routes_turns.py:164-167 | pulling an absent id changes nothing |
| TurnRoutes.PullTurnId | backend/app/routes_turns.py:163-167 | the pull keeps every scene's id and chapter |
| TurnRoutes.PullKeepsListed | backend/app/routes_turns.py:163-170 | removing a turn and pulling its id keeps every listed id pointing at a stored turn |
| TurnRoutes.DeleteConsistent | backend/app/routes_turns.py:150-172 | fails exactly on a missing or non-draft turn and writes nothing then; consistency is kept |
| TurnRoutes.PushThenPull | backend/app/routes_turns.py:57-61 | pulling an id just pushed onto a list without it gives the list back |
| TurnRoutes.CreateThenDelete | backend/app/routes_turns.py:38-172 | deleting a turn just created restores the database |
| TurnRoutes.DeleteTurn | backend/app/routes_turns.py:150-172 | the route's answer and new database are the delete outcome |
| Transition.ParseNoneIff | backend/app/services/transition.py:63-80 | no transition iff `transition` is not an object or its type is neither scene nor chapter |
| Transition.TransitionReply | backend/app/services/transition.py:54-61 | the documented reply form is an object |
| Transition.ParseRoundTrip | backend/app/services/transition.py:47-80 | parsing a reply written in the documented form gives back the transition |
| Transition.SummaryCountReadsBack | backend/app/services/transition.py:331-332 | the count in a completion summary is the decimal of the count |
| Transition.CloseSceneIn | backend/app/services/transition.py:322-349 | closing keeps every scene's id, chapter and turn list |
| Transition.CloseChapterIn | backend/app/services/transition.py:353-380 | closing keeps every chapter's id and scene list |
| Transition.ClosingConsistent | backend/app/services/transition.py:322-380 | closing a scene or a chapter keeps the database consistent |
| Transition.CloseScene | backend/app/services/transition.py:322-351 | the store is closed as specified and stays consistent |
| Transition.CloseChapter | backend/app/services/transition.py:353-382 | the store is closed as specified and stays consistent |
| Transition.AddSceneTo | backend/app/services/transition.py:191-195 | the push keeps the chapter ids |
| Transition.ClosedForChapter | backend/app/services/transition.py:242-248 | closing for a chapter leaves campaigns alone |
| Transition.ProcessGuards | backend/app/services/transition.py:105-128 | no transition writes nothing; a missing current scene fails before any write |
| Transition.NewSceneShape | backend/app/services/transition.py:130-204 | old scene closed; new scene active, empty, without participants, listed in its chapter; turns and campaigns untouched |
| Transition.CampaignMissingAfterClose | backend/app/services/transition.py:237-254 | a missing campaign fails only after the scene and its chapter are closed |
| Transition.NewChapterShape | backend/app/services/transition.py:206-320 | the new chapter is numbered after the arc's, holds its opening scene, and only its id is appended to the arc |
| Transition.AddSceneListed | backend/app/services/transition.py:189-195 | a new scene is listed in its chapter and every other listing stays |
| Transition.AddedSceneConsistent | backend/app/services/transition.py:189-195 | storing and listing a fresh empty scene keeps consistency |
| Transition.NewSceneConsistent | backend/app/services/transition.py:130-204 | a scene transition keeps consistency |
| Transition.ClosedForChapterConsistent | backend/app/services/transition.py:242-248 | closing scene and chapter keeps consistency and the key sets |
| Transition.AddChapterListed | backend/app/services/transition.py:263-300 | a new chapter listing only its new scene keeps every listing |
| Transition.AddedChapterConsistent | backend/app/services/transition.py:276-306 | storing a fresh chapter with its opening scene keeps consistency |
| Transition.NewChapterConsistent | backend/app/services/transition.py:206-320 | a chapter transition keeps consistency |
| Transition.AddScene | backend/app/services/transition.py:188-195 | inserts the scene and pushes its id, keeping consistency |
| Transition.AddChapter | backend/app/services/transition.py:276-306 | inserts chapter and scene and pushes the chapter id, keeping consistency |
| Transition.CreateNewScene | backend/app/services/transition.py:130-204 | answer and new store are the scene-transition outcome |
| Transition.CloseForChapter | backend/app/services/transition.py:242-248 | closes the scene and the chapter it names |
| Transition.CreateNewChapter | backend/app/services/transition.py:206-320 | answer and new store are the chapter-transition outcome |
| Transition.ProcessTransition | backend/app/services/transition.py:82-128 | answer and new store are the transition outcome, consistency kept |
| DiceRoller.Face | diceRoller.js:28 | a die shows 1..sides |
| DiceRoller.TensOf | diceRoller.js:65 | a tens die is a multiple of ten in 0..90 |
| DiceRoller.SumSnoc | diceRoller.js:30 | the running total adds each die |
| DiceRoller.Least | diceRoller.js:88 | the minimum: no larger than any, and one of them |
| DiceRoller.Greatest | diceRoller.js:90 | the maximum: no smaller than any, and one of them |
| DiceRoller.ExtraTens | diceRoller.js:74-84 | n extra tens dice, each a tens value |
| DiceRoller.KeptTens | diceRoller.js:86-91 | the kept tens is a tens value |
| DiceRoller.PercentInRange | diceRoller.js:64-105 | result in 1..100, tens and extra dice tens values, units a digit |
| DiceRoller.PercentNetOnly | diceRoller.js:67-84 | only the net bonus counts; one kind of extra dice at most, as many as the difference |
| DiceRoller.PercentBonusPenalty | diceRoller.js:86-94 | with 100 read back as 00, bonus dice keep the lowest tens and never raise the underlying roll, and penalty dice keep the highest and never lower it; equal numbers roll no extra dice; the displayed result can move the other way (see Findings) |
| DiceRoller.BonusDieCanRaise | diceRoller.js:86-94 | as written, tens 90, units 0 and a bonus die of 00 show 90 without the bonus die and 100 with it |
| DiceRoller.PenaltyDieCanLower | diceRoller.js:86-94 | as written, tens 00, units 0 and a penalty die of 90 show 100 without the penalty die and 90 with it |
| DiceRoller.BestTens | diceRoller.js:88 | the bonus rule on displayed totals: a tens die whose total is no higher than any other's, and one of them |
| DiceRoller.WorstTens | diceRoller.js:90 | the penalty rule on displayed totals: a tens die whose total is no lower than any other's, and one of them |
| DiceRoller.CorrectedBonusPenalty | diceRoller.js:64-105 | corrected: the displayed result lies in 1..100; with bonus dice it is the lowest displayed total among the tens and the bonus dice, with penalty dice the highest; equal numbers roll as written |
| DiceRoller.BestIsLeast | diceRoller.js:88 | for a units digit other than 0, the corrected bonus rule keeps the same tens as `Math.min` |
| DiceRoller.WorstIsGreatest | diceRoller.js:90 | for a units digit other than 0, the corrected penalty rule keeps the same tens as `Math.max` |
| DiceRoller.CorrectedAgrees | diceRoller.js:86-94 | the correction changes no roll whose units digit is not 0 |
| DiceRoller.RollPercentDice | diceRoller.js:64-105 | returns the specified percentile roll |
| DiceRoller.Clean | diceRoller.js:11 | the cleaned text has no whitespace and no lower-case letter |
| DiceRoller.DigitPrefix | diceRoller.js:12 | the longest leading run of digits |
| DiceRoller.NextDice | diceRoller.js:12 | the next dice match ends inside the text |
| DiceRoller.NextModifier | diceRoller.js:13 | the next modifier match ends inside the text |
| DiceRoller.TermRolls | diceRoller.js:27-31 | a term rolls its count of dice, each within its sides |
| DiceRoller.Outputs | diceRoller.js:19-39 | one entry per term |
| DiceRoller.DiceResultShape | diceRoller.js:10-56 | one entry per dice term in order with its dice and their sum; total is dice plus modifiers |
| DiceRoller.RollTerm | diceRoller.js:27-31 | the inner loop rolls the term's dice and their sum |
| DiceRoller.RollDiceTerms | diceRoller.js:19-39 | the dice loop yields the entries of every match and their total |
| DiceRoller.ApplyModifiers | diceRoller.js:41-46 | the modifier loop sums every modifier match |
| DiceRoller.RollDiceExpression | diceRoller.js:10-56 | returns the specified result of the expression |
| DiceRoller.RenderDice | diceRoller.js:12-21 | the dice terms read from a written expression are those it was written from |
| DiceRoller.RenderModifiers | diceRoller.js:13-46 | a written expression's modifiers sum to the modifier it was written with |
| DiceRoller.RollWritten | diceRoller.js:10-56 | rolling a written expression rolls exactly its terms in order and adds exactly its modifier |
| DiceRoller.FormatDiceLines | diceRoller.js:112-121 | one line per entry, plus a "Mod:" line iff the modifier is not zero |
| DiceRoller.ModLineReadsBack | diceRoller.js:119-121 | the "Mod:" line reads back as the modifier |
| GameSession.CanStartGame | frontend/src/stores/gameSession.ts:28-39 | the last gate holds iff name, world, realm, campaign, characters and session are all set, and it implies every earlier gate |
| GameSession.InitialClosed | frontend/src/stores/gameSession.ts:13-39 | a fresh store has nothing selected and every gate shut |
| GameSession.TrimmedSet | frontend/src/stores/gameSession.ts:28-44 | a trimmed name counts as set iff it held non-whitespace |
| GameSession.WithPlayerName | frontend/src/stores/gameSession.ts:43-49 | stores the trimmed name and touches nothing else |
| GameSession.WithWorld | frontend/src/stores/gameSession.ts:58-65 | clears everything downstream, so no gate past the realm step is open |
| GameSession.WithRealm | frontend/src/stores/gameSession.ts:67-73 | clears campaign, characters and session |
| GameSession.WithCampaign | frontend/src/stores/gameSession.ts:75-80 | clears characters and session |
| GameSession.WithCharacters | frontend/src/stores/gameSession.ts:82-86 | clears the session, so the game cannot start |
| GameSession.WithSession | frontend/src/stores/gameSession.ts:103-105 | changes only the session |
| GameSession.IndexOf | frontend/src/stores/gameSession.ts:89 | the first index with the id, or -1 when none has it |
| GameSession.IsSelected | frontend/src/stores/gameSession.ts:99-101 | true iff some character has the id |
| GameSession.Toggled | frontend/src/stores/gameSession.ts:88-97 | a selected id loses its first character; an unselected one is appended |
| GameSession.ToggledFrom | frontend/src/stores/gameSession.ts:88-97 | every character after toggling was selected before or is the toggled one |
| GameSession.ToggleSelf | frontend/src/stores/gameSession.ts:88-97 | with distinct ids toggling flips whether the id is selected |
| GameSession.ToggleOther | frontend/src/stores/gameSession.ts:88-97 | toggling leaves every other id's selection alone |
| GameSession.ToggleFlips | frontend/src/stores/gameSession.ts:88-101 | toggling changes the toggled id's selection and nothing else |
| GameSession.ToggleKeepsUnique | frontend/src/stores/gameSession.ts:88-97 | toggling keeps ids distinct |
| GameSession.ToggleTwice | frontend/src/stores/gameSession.ts:88-97 | toggling twice restores the selection, and the list when it was not selected |
| GameSession.WithToggled | frontend/src/stores/gameSession.ts:88-97 | toggling changes only the characters |
| GameSession.SessionStore.constructor | frontend/src/stores/gameSession.ts:13-24 | the store starts in the initial state |
| GameSession.SessionStore.SetPlayerName | frontend/src/stores/gameSession.ts:43-49 | new state as `WithPlayerName` |
| GameSession.SessionStore.SetWorld | frontend/src/stores/gameSession.ts:58-65 | new state as `WithWorld` |
| GameSession.SessionStore.SetRealm | frontend/src/stores/gameSession.ts:67-73 | new state as `WithRealm` |
| GameSession.SessionStore.SetCampaign | frontend/src/stores/gameSession.ts:75-80 | new state as `WithCampaign` |
| GameSession.SessionStore.SetCharacters | frontend/src/stores/gameSession.ts:82-86 | new state as `WithCharacters` |
| GameSession.SessionStore.ToggleCharacter | frontend/src/stores/gameSession.ts:88-97 | new state as `WithToggled` |
| GameSession.SessionStore.IsCharacterSelected | frontend/src/stores/gameSession.ts:99-101 | true iff a selected character has the id |
| GameSession.SessionStore.SetSession | frontend/src/stores/gameSession.ts:103-105 | new state as `WithSession` |
| GameSession.SessionStore.ResetSession | frontend/src/stores/gameSession.ts:119-128 | back to the initial state |
| Llm.Split | backend/app/services/llm.py:236 | at least one piece and no piece holds the separator |
| Llm.SplitJoin | backend/app/services/llm.py:236 | joining the pieces with the separator gives the text back |
| Llm.Milestone | backend/app/services/llm.py:239-244 | a kept line is trimmed and non-empty |
| Llm.Milestones | backend/app/services/llm.py:238-244 | every milestone is trimmed and non-empty, at most one per line |
| Llm.Sources | backend/app/services/llm.py:238-244 | each milestone is read from its own line, in increasing line order |
| Llm.SliceTo | backend/app/services/llm.py:247 | Python's `[:n]`, for negative n too |
| Llm.MilestonesShape | backend/app/services/llm.py:232-256 | at most count milestones, each a trimmed line of the reply or a fixed fallback |
| Llm.NoReplyFallback | backend/app/services/llm.py:234-256 | a failed call, or a reply with no numbered line, gives the first count fallbacks |
| Llm.ParseLine | backend/app/services/llm.py:239-244 | one loop pass yields the line's milestone, if any |
| Llm.ParseLines | backend/app/services/llm.py:238-244 | the loop yields exactly the milestones of the lines |
| Llm.ParseMilestones | backend/app/services/llm.py:236-244 | the milestones of the stripped reply's lines |
| Llm.GenerateCampaignMilestones | backend/app/services/llm.py:190-256 | the parsed milestones cut to count, or the fallbacks |
| Llm.ActionParts | backend/app/services/llm.py:98-103 | speech then deed, each only when set, with the actor's name or "Someone" |
| Llm.ReactionPart | backend/app/services/llm.py:106-108 | a reaction line iff a description is set: "Result: ", at most 200 characters, "..." |
| Llm.EventLines | backend/app/services/llm.py:127 | the first ten descriptions, each prefixed "- " |
| Llm.DescribeActions | backend/app/services/llm.py:97-103 | the action loop yields exactly the parts of the actions |
| Llm.DescribeTurns | backend/app/services/llm.py:92-111 | one description per turn with any part; a reaction stored as null is read as no reaction (the corrected reading, see Findings) |
| Llm.SummarizeScene | backend/app/services/llm.py:73-137 | no prompt iff no turns; the summary is the stripped reply or a fallback; follows the corrected reading of a null reaction (see Findings) |
| Llm.SceneFallbacks | backend/app/services/llm.py:88-137 | with no turns the reply is ignored; a failed call reports the turn count in decimal |
| Llm.TurnPartsAsWritten | backend/app/services/llm.py:106-107 | fails exactly on a reaction stored as null |
| Llm.DraftTurnBreaksSummary | backend/app/services/llm.py:106-107 | a scene holding one new turn cannot be summarised as written |
| Llm.SummaryAgreesWithoutNull | backend/app/services/llm.py:93-137 | where the code as written does not raise, the corrected summary agrees with it |
| Llm.SceneLines | backend/app/services/llm.py:158-162 | one line per scene, with "Unnamed Scene" and "No summary" for missing fields |
| Llm.SummarizeChapter | backend/app/services/llm.py:139-188 | no prompt iff no scenes; the prompt holds the scene lines; the summary is the stripped reply or a fallback |
| Llm.ChapterFallbacks | backend/app/services/llm.py:154-188 | with no scenes the reply is ignored; a failed call reports the scene count in decimal |
| Speech.Find | frontend/src/composables/useSpeechSynthesis.ts:45 | the first voice passing the test, or none when none passes |
| Speech.PreferredVoice | frontend/src/composables/useSpeechSynthesis.ts:42-59 | a voice iff any is available, and one of them |
| Speech.NameRank | frontend/src/composables/useSpeechSynthesis.ts:17-21 | the position of a name in the preference list, or its length |
| Speech.FirstNamedBest | frontend/src/composables/useSpeechSynthesis.ts:44-47 | the name search picks the earliest voice of best name rank |
| Speech.NamedIsBest | frontend/src/composables/useSpeechSynthesis.ts:44-47 | a voice found by name is the best-ranked |
| Speech.LangIsBest | frontend/src/composables/useSpeechSynthesis.ts:50-58 | without a named voice the language fallbacks pick the best-ranked |
| Speech.PreferredIndexBest | frontend/src/composables/useSpeechSynthesis.ts:42-59 | none iff no voices; otherwise the earliest voice of lowest rank |
| Speech.FindPreferredVoice | frontend/src/composables/useSpeechSynthesis.ts:42-59 | the loop and fallbacks return the preferred voice |
| Speech.SelectedVoice | frontend/src/composables/useSpeechSynthesis.ts:62-65 | the voice with the chosen name, or none when no name is chosen or none matches |
| Speech.EnglishVoices | frontend/src/composables/useSpeechSynthesis.ts:68-70 | every kept voice is listed and English, every English voice is kept, and the result is no longer than the list |
| Speech.EnglishVoicesOne | frontend/src/composables/useSpeechSynthesis.ts:68-70 | one voice is kept iff its language starts with "en" |
| Speech.EnglishVoicesAppend | frontend/src/composables/useSpeechSynthesis.ts:68-70 | the filter distributes over concatenation, so it keeps the English voices in order, each as often as listed |
| Speech.Remainder | frontend/src/composables/useSpeechSynthesis.ts:87 | the end of the text from the offset, all of it for no positive offset |
| Speech.LoadedChoice | frontend/src/composables/useSpeechSynthesis.ts:24-39 | a chosen name is kept, otherwise the preferred voice is chosen; an empty report changes nothing |
| Speech.LoadedTwice | frontend/src/composables/useSpeechSynthesis.ts:24-39 | loading the same voices twice equals loading them once |
| Speech.SpokenQueues | frontend/src/composables/useSpeechSynthesis.ts:77-121 | not speaking yet; an utterance of the remainder with the selected voice is queued iff the remainder is not blank |
| Speech.RemainderSkips | frontend/src/composables/useSpeechSynthesis.ts:87 | an offset inside the text skips exactly that many characters |
| Speech.ToggledFlips | frontend/src/composables/useSpeechSynthesis.ts:139-145 | toggling while speaking stops; toggling never leaves it speaking |
| Speech.StoppedTwice | frontend/src/composables/useSpeechSynthesis.ts:126-132 | stopping is idempotent and clears speaking and the utterance |
| Speech.CollapseSpace | frontend/src/composables/useSpeechSynthesis.ts:179 | no longer than the text; empty iff empty; starts with a space iff the text starts with whitespace; its only whitespace is single spaces |
| Speech.NonSpace | frontend/src/composables/useSpeechSynthesis.ts:179 | the non-whitespace characters of a text |
| Speech.CollapseKeepsText | frontend/src/composables/useSpeechSynthesis.ts:179 | collapsing keeps every non-whitespace character in order |
| Speech.StripKeepsText | frontend/src/composables/useSpeechSynthesis.ts:179 | trimming keeps every non-whitespace character in order |
| Speech.TextContentFlat | frontend/src/composables/useSpeechSynthesis.ts:177-180 | page text has no edge whitespace, only single spaces |
| Speech.TextContentKeepsText | frontend/src/composables/useSpeechSynthesis.ts:177-180 | page text keeps every non-whitespace character in order |
| Speech.CollapseFlat | frontend/src/composables/useSpeechSynthesis.ts:179 | collapsing a flat text changes nothing |
| Speech.CollapseGlue | frontend/src/composables/useSpeechSynthesis.ts:179 | a non-empty whitespace run between text ending in a non-space and text starting with one becomes exactly one space, and each side collapses on its own |
| Speech.WordsKeepTheirSpace | frontend/src/composables/useSpeechSynthesis.ts:179 | two flat words with any whitespace run between them collapse to the words joined by one space |
| Speech.TextContentIdempotent | frontend/src/composables/useSpeechSynthesis.ts:177-180 | normalising page text twice equals once |
| Speech.Narrator.constructor | frontend/src/composables/useSpeechSynthesis.ts:11-14 | no voices, not speaking, nothing queued |
| Speech.Narrator.LoadVoices | frontend/src/composables/useSpeechSynthesis.ts:24-39 | new state as `Loaded` |
| Speech.Narrator.Stop | frontend/src/composables/useSpeechSynthesis.ts:126-132 | new state as `Stopped` |
| Speech.Narrator.Speak | frontend/src/composables/useSpeechSynthesis.ts:77-121 | new state as `Spoken` |
| Speech.Narrator.Toggle | frontend/src/composables/useSpeechSynthesis.ts:139-145 | new state as `Toggled` |
| Speech.Narrator.OnStart | frontend/src/composables/useSpeechSynthesis.ts:104-106 | speaking becomes true and nothing else changes |
| Speech.Narrator.OnEnd | frontend/src/composables/useSpeechSynthesis.ts:108-117 | not speaking and nothing queued |

## Left out

- The HTTP call to the language model (`_call_llm`) is left out: it is I/O, so its reply is a parameter. Also left out is the fixed wording of the system prompts and of the milestone prompt.
- Database I/O is reduced to map updates: Mongo atomicity, write ordering across handlers and concurrency are not modelled. Generated ids are parameters and must be fresh (a precondition).
- `datetime.utcnow()` is a parameter. One call of a handler uses a single timestamp.
- ContextAssembly.CollectEarlier: the candidates are collected in no particular order. The order among turns with equal `order` after sorting is not stated.
- ContextAssembly.BuildCharacter: a backstory field that is set but is not text reads as "". Pydantic validation does not let one be stored.
- ContextAssembly.ParseIntCases: Python `int()` also accepts underscores between digits and non-ASCII digits. It also strips non-ASCII whitespace and the separators U+001C to U+001F, so `int("\x1c5")` is 5. The model strips ASCII whitespace, then accepts an optional sign and ASCII digits only.
- ContextAssembly.ParseIntCases: the JSON model has no floating-point numbers. `_parse_int` truncates a float toward zero (`int(3.7)` is 3). An infinite float raises `OverflowError`, which the `except` clause does not catch.
- ContextAssembly.AssembleContext: requires every stored character and NPC sheet to have the shape the source writes (`CharactersShaped`, `NpcsShaped`). The source raises on a malformed sheet, for example when `data.skills` is not a dict.
- ContextAssembly.FetchLore: the relevance scoring it is meant to do does not exist yet in the source.
- SkillCheck.DetectWith: triggers are regular expressions in the source. Here they are phrases matched as whole words, and `\s+` is a single space.
- SkillCheck.DifficultyIgnoresCase: case folding is ASCII only.
- SkillCheck.AnyWord: a word character is an ASCII letter, digit or `_`, where Python's `re` also counts other Unicode letters and digits for `\b`.
- SkillCheck.FiresIgnoresCase: `re.IGNORECASE` is read as ASCII case folding; other Unicode letters are compared as they are.
- SkillCheck.FindExact: skill names are lowered with ASCII lowering, where Python's `str.lower` also lowers other Unicode letters.
- SkillCheck.FindExactFirst: the first match is taken under ASCII lowering only, as for FindExact.
- SkillCheck.FindPrefix: `startswith` is applied after ASCII lowering only, as for FindExact.
- SkillCheck.FindPrefixFirst: the first prefix match is taken under ASCII lowering only, as for FindExact.
- Llm.Milestone: `str.strip` removes ASCII whitespace only, and `str.isdigit` accepts ASCII digits only; Python also accepts digits such as '²' and '٣'.
- Speech.Remainder: the offset counts Unicode scalar values, where JavaScript's `slice` counts UTF-16 code units, so an offset past a character outside the Basic Multilingual Plane lands elsewhere; `trim` strips ASCII whitespace only.
- SkillCheck.RollWith: the `Dodge` default is a Python function, and using it raises a TypeError. The model returns that error for the whole call.
- Transition.ParseNoneIff: a `reason` or `suggested_name` that is not a string reads as absent. Pydantic coercion is not modelled.
- Transition.NewChapterOutcome: a campaign document with no `story_arc` key at all is not modelled. There the source would number the chapter 1. A `story_arc` stored as null, the default of `Campaign.story_arc`, makes `.get` raise in the source; the model returns `StoryArcNull` after the scene and chapter are closed.
- DiceRoller.Face: random draws are natural numbers drawn from a parameter. `Math.random()` floats are not modelled.
- DiceRoller.Clean: `toUpperCase` and `\s` are ASCII only.
- DiceRoller.NextDice: JavaScript `parseInt` loses precision above 2^53. The model reads the digits exactly.
- DiceRoller.PercentOf: the bonus and penalty counts are integers. JavaScript accepts any number, and a difference of 1.5 would roll two extra dice and report `effectiveBonus` as 1.5. No caller passes a fraction. The default arguments are modelled by passing 0.
- DiceRoller.PercentBonusPenalty: bounds the roll with 100 read back as 00 (`Underlying`), not the displayed result, which a bonus die can raise and a penalty die can lower (see Findings).
- `formatPercentResult` and the HTML wrapping of `formatDiceResult` are left out: they are display markup. The lines the latter joins are modelled.
- GameSession is left out in part: the `isLoading` and `error` setters (`setLoading`, `setError`, `clearError`) and every `localStorage` access (`loadPlayerNameFromStorage`, `saveSessionState`, `getSessionState`, the storage writes of `setPlayerName` and `resetSession`). These are browser storage and UI flags, not selection logic.
- GameSession.TrimmedSet: JavaScript `trim` removes Unicode whitespace. The model strips ASCII whitespace.
- GameSession.SessionStore.SetCharacters: the store keeps the caller's own array, so a later `toggleCharacter` (`splice`, `push`) also changes the caller's array. The model holds the characters as a value, so that aliasing is not captured. No caller observes it.
- Speech: `getSelectionOffset` is left out because it measures a DOM range. The offset is a parameter of `speak` and `toggle`.
- Speech: the rate, pitch and volume settings are left out because they are floats passed to the engine unread.
- Speech: the `onMounted`/`onvoiceschanged` wiring and `onUnmounted` are left out. The browser's `speechSynthesis.speak`/`cancel` are not modelled either. Their callbacks are the methods `OnStart` and `OnEnd`, which anyone may call, and an error event is `OnEnd`.
- Speech.CollapseSpace: `\s` and `trim` are treated as ASCII whitespace.

## Findings

| source | as written | input that shows it | evidently intended | confidence | as-written member | corrected member |
|---|---|---|---|---|---|---|
| backend/app/services/llm.py:106-107 | `turn.get("reaction", {})` returns None for a reaction stored as null, and `.get("description")` on it raises AttributeError. A new turn stores its reaction as null (backend/app/models.py:351). | a scene whose one turn is a new draft, `[TurnDoc([], Null)]` | a null reaction is read as no reaction | not executed | Llm.DraftTurnBreaksSummary | Llm.SummaryAgreesWithoutNull |
| diceRoller.js:86-94 | Bonus dice keep the lowest tens with `Math.min` before 00 with a units digit of 0 is turned into 100, so a bonus die of 00 can turn a 90 into 100, the worst roll. | tens 90, units 0, one bonus die 00 | a bonus die keeps the better displayed result | not executed; the Call of Cthulhu rules count 00 with 0 as 100 | DiceRoller.BonusDieCanRaise | DiceRoller.CorrectedBonusPenalty |
| diceRoller.js:86-94 | Penalty dice keep the highest tens with `Math.max` before 00 with a units digit of 0 is turned into 100, so a penalty die of 90 can turn 100 into 90. | tens 00, units 0, one penalty die 90 | a penalty die keeps the worse displayed result | not executed; the Call of Cthulhu rules count 00 with 0 as 100 | DiceRoller.PenaltyDieCanLower | DiceRoller.CorrectedBonusPenalty |
