/**
 * The skill-check service: detecting the checks a turn's actions call for
 * from trigger words, and rolling them under the Call of Cthulhu 7th
 * edition percentile rules. Every d100 draw is an input.
 */
module SkillCheck {
  import opened Wrappers
  import opened Strings
  import opened Records
  import opened ContextAssembly
  import opened Sequences

  // ------------------------------------------------------------- records

  datatype Difficulty = Regular | Hard | Extreme

  function DifficultyName(d: Difficulty): string {
    match d
    case Regular => "Regular"
    case Hard => "Hard"
    case Extreme => "Extreme"
  }

  datatype SuccessLevel =
    | CriticalSuccess | ExtremeSuccess | HardSuccess | RegularSuccess | Failure | Fumble

  function LevelName(l: SuccessLevel): string {
    match l
    case CriticalSuccess => "Critical Success"
    case ExtremeSuccess => "Extreme Success"
    case HardSuccess => "Hard Success"
    case RegularSuccess => "Regular Success"
    case Failure => "Failure"
    case Fumble => "Fumble"
  }

  datatype DetectedSkillCheck = DetectedSkillCheck(
    characterId: string,
    characterName: string,
    skillName: string,
    difficulty: Difficulty,
    reason: string)

  datatype SkillCheckResult = SkillCheckResult(
    characterId: string,
    characterName: string,
    skillName: string,
    skillValue: int,
    difficulty: Difficulty,
    rolled: int,
    targetRegular: int,
    targetHard: int,
    targetExtreme: int,
    successLevel: SuccessLevel,
    success: bool,
    formatted: string)

  // ------------------------------------------------------------- success

  /** `_determine_success`: a roll of 1 is critical and 96 or more fumbles
      before any threshold is looked at; then the tightest threshold the
      roll meets decides. */
  function DetermineSuccess(rolled: int, regular: int, hard: int, extreme: int): (SuccessLevel, bool) {
    if rolled == 1 then (CriticalSuccess, true)
    else if rolled >= 96 then (Fumble, false)
    else if rolled <= extreme then (ExtremeSuccess, true)
    else if rolled <= hard then (HardSuccess, true)
    else if rolled <= regular then (RegularSuccess, true)
    else (Failure, false)
  }

  /** The thresholds `roll_skill_checks` derives from a skill value. Python's
      `//` floors; with the positive divisors here Dafny's `/` agrees. */
  function Outcome(rolled: int, skill: int): (SuccessLevel, bool) {
    DetermineSuccess(rolled, skill, skill / 2, skill / 5)
  }

  predicate IsSuccessLevel(l: SuccessLevel) {
    l.CriticalSuccess? || l.ExtremeSuccess? || l.HardSuccess? || l.RegularSuccess?
  }

  /** How good a level is: a larger rank is a better result. */
  function Rank(l: SuccessLevel): nat {
    match l
    case Fumble => 0
    case Failure => 1
    case RegularSuccess => 2
    case HardSuccess => 3
    case ExtremeSuccess => 4
    case CriticalSuccess => 5
  }

  /** The flag returned beside the level says whether the level is one of
      the four successes, whatever the thresholds. */
  lemma SuccessFlagMatchesLevel(rolled: int, regular: int, hard: int, extreme: int)
    ensures DetermineSuccess(rolled, regular, hard, extreme).1
      <==> IsSuccessLevel(DetermineSuccess(rolled, regular, hard, extreme).0)
  {
  }

  /** 01 is always a critical success and 96-100 always a fumble, even for a
      skill of 96 or more. */
  lemma CriticalAndFumbleFirst(rolled: int, skill: int)
    ensures rolled == 1 ==> Outcome(rolled, skill).0 == CriticalSuccess
    ensures 96 <= rolled ==> Outcome(rolled, skill).0 == Fumble
  {
  }

  /** A check succeeds exactly on 01, or on a roll under 96 that is at most
      the skill value. */
  lemma SuccessIff(rolled: int, skill: int)
    requires 1 <= rolled <= 100
    ensures Outcome(rolled, skill).1 <==> rolled == 1 || (rolled < 96 && rolled <= skill)
  {
    if skill >= 0 {
      assert skill / 5 <= skill / 2 <= skill;
    }
  }

  /** For a roll between 02 and 95 the level is fixed by the band the roll
      falls in: at most a fifth of the skill, at most half, at most all. */
  lemma LevelBands(rolled: int, skill: int)
    requires 1 < rolled < 96 && skill >= 0
    ensures Outcome(rolled, skill).0 == ExtremeSuccess <==> rolled <= skill / 5
    ensures Outcome(rolled, skill).0 == HardSuccess <==> skill / 5 < rolled <= skill / 2
    ensures Outcome(rolled, skill).0 == RegularSuccess <==> skill / 2 < rolled <= skill
    ensures Outcome(rolled, skill).0 == Failure <==> skill < rolled
  {
    assert skill / 5 <= skill / 2 <= skill;
  }

  /** Between 02 and 95, a lower roll never gives a worse level. */
  lemma LowerRollNoWorse(r1: int, r2: int, skill: int)
    requires 1 < r1 <= r2 < 96
    ensures Rank(Outcome(r1, skill).0) >= Rank(Outcome(r2, skill).0)
  {
  }

  /** A higher skill never gives a worse level for the same roll. */
  lemma HigherSkillNoWorse(rolled: int, s1: int, s2: int)
    requires s1 <= s2
    ensures Rank(Outcome(rolled, s1).0) <= Rank(Outcome(rolled, s2).0)
  {
    assert s1 / 5 <= s2 / 5 && s1 / 2 <= s2 / 2;
  }

  // ---------------------------------------------------------- difficulty

  const ExtremeWords: seq<string> :=
    ["in darkness", "pitch black", "blindfolded", "while running", "under fire", "panic", "terrified"]
  const HardWords: seq<string> :=
    ["quickly", "hurried", "dim light", "distracted", "carefully", "precisely", "hidden", "concealed"]

  /** `any(word in text for word in words)`. */
  function AnyContained(text: string, words: seq<string>): (r: bool)
    ensures r <==> exists k :: 0 <= k < |words| && Contains(text, words[k])
  {
    if |words| == 0 then false
    else Contains(text, words[|words| - 1]) || AnyContained(text, words[..|words| - 1])
  }

  /** `_determine_difficulty`, over the lower-cased text. */
  function DetermineDifficulty(text: string): Difficulty {
    var lower := Lower(text);
    if AnyContained(lower, ExtremeWords) then Extreme
    else if AnyContained(lower, HardWords) then Hard
    else Regular
  }

  lemma LowerIdempotent(s: string)
    ensures Lower(Lower(s)) == Lower(s)
  {
  }

  /** The difficulty ignores the case of the text. */
  lemma DifficultyIgnoresCase(text: string)
    ensures DetermineDifficulty(Lower(text)) == DetermineDifficulty(text)
  {
    LowerIdempotent(text);
  }

  /** An extreme phrase wins over any hard phrase; a hard phrase wins over
      none; otherwise the check is regular. */
  lemma DifficultyPrecedence(text: string)
    ensures DetermineDifficulty(text) == Extreme
      <==> exists k :: 0 <= k < |ExtremeWords| && Contains(Lower(text), ExtremeWords[k])
    ensures DetermineDifficulty(text) == Hard
      <==> ((forall k :: 0 <= k < |ExtremeWords| ==> !Contains(Lower(text), ExtremeWords[k]))
            && exists k :: 0 <= k < |HardWords| && Contains(Lower(text), HardWords[k]))
  {
  }

  // ------------------------------------------------------------ triggers

  /** A trigger of `SKILL_TRIGGERS`: the pattern text, its alternatives as
      lower-case phrases, and the skill it calls for. A `\s+` inside an
      alternative is written as one space. */
  datatype Trigger = Trigger(pattern: string, phrases: seq<string>, skill: string)

  const SkillTriggers: seq<Trigger> := [
    Trigger("\\b(examine|inspect|search|look\\s+for|find)\\b",
      ["examine", "inspect", "search", "look for", "find"], "Spot Hidden"),
    Trigger("\\b(listen|hear|eavesdrop)\\b", ["listen", "hear", "eavesdrop"], "Listen"),
    Trigger("\\b(library|research|study|read|books)\\b",
      ["library", "research", "study", "read", "books"], "Library Use"),
    Trigger("\\b(track|follow\\s+trail)\\b", ["track", "follow trail"], "Track"),
    Trigger("\\b(recall|remember|know|recognize)\\b", ["recall", "remember", "know", "recognize"], "INT"),
    Trigger("\\b(mythos|elder\\s+sign|ritual)\\b", ["mythos", "elder sign", "ritual"], "Cthulhu Mythos"),
    Trigger("\\b(history|historical)\\b", ["history", "historical"], "History"),
    Trigger("\\b(occult|magic|supernatural)\\b", ["occult", "magic", "supernatural"], "Occult"),
    Trigger("\\b(convince|persuade|negotiate)\\b", ["convince", "persuade", "negotiate"], "Persuade"),
    Trigger("\\b(charm|seduce|flirt)\\b", ["charm", "seduce", "flirt"], "Charm"),
    Trigger("\\b(intimidate|threaten)\\b", ["intimidate", "threaten"], "Intimidate"),
    Trigger("\\b(fast\\s+talk|lie|deceive)\\b", ["fast talk", "lie", "deceive"], "Fast Talk"),
    Trigger("\\b(psychoanalyze|therapy)\\b", ["psychoanalyze", "therapy"], "Psychoanalysis"),
    Trigger("\\b(sneak|hide|stealth)\\b", ["sneak", "hide", "stealth"], "Stealth"),
    Trigger("\\b(climb)\\b", ["climb"], "Climb"),
    Trigger("\\b(jump|leap)\\b", ["jump", "leap"], "Jump"),
    Trigger("\\b(dodge|evade)\\b", ["dodge", "evade"], "Dodge"),
    Trigger("\\b(swim)\\b", ["swim"], "Swim"),
    Trigger("\\b(shoot|fire|aim)\\b", ["shoot", "fire", "aim"], "Firearms"),
    Trigger("\\b(punch|hit|strike|brawl)\\b", ["punch", "hit", "strike", "brawl"], "Fighting (Brawl)"),
    Trigger("\\b(throw)\\b", ["throw"], "Throw"),
    Trigger("\\b(repair|fix)\\b", ["repair", "fix"], "Mechanical Repair"),
    Trigger("\\b(drive|pilot)\\b", ["drive", "pilot"], "Drive Auto"),
    Trigger("\\b(lockpick|pick\\s+lock)\\b", ["lockpick", "pick lock"], "Locksmith"),
    Trigger("\\b(operate\\s+machinery)\\b", ["operate machinery"], "Operate Heavy Machinery"),
    Trigger("\\b(first\\s+aid|bandage|treat\\s+wound)\\b", ["first aid", "bandage", "treat wound"], "First Aid"),
    Trigger("\\b(diagnose|medicine|surgery)\\b", ["diagnose", "medicine", "surgery"], "Medicine")
  ]

  /** Some alternative occurs in the text as a whole word. */
  function AnyWord(text: string, phrases: seq<string>): (r: bool)
    ensures r <==> exists k :: 0 <= k < |phrases| && ContainsWord(text, phrases[k])
  {
    if |phrases| == 0 then false
    else ContainsWord(text, phrases[|phrases| - 1]) || AnyWord(text, phrases[..|phrases| - 1])
  }

  /** `pattern.search(text)` for a case-insensitive trigger. */
  predicate Fires(t: Trigger, text: string) {
    AnyWord(Lower(text), t.phrases)
  }

  /** A trigger fires regardless of the case of the text. */
  lemma FiresIgnoresCase(t: Trigger, text: string)
    ensures Fires(t, Lower(text)) <==> Fires(t, text)
  {
    LowerIdempotent(text);
  }

  // ----------------------------------------------------------- detection

  /** Every character is stored under its own id. */
  predicate KeyedById(chars: map<string, CharacterContext>) {
    forall id :: id in chars ==> chars[id].id == id
  }

  /** `{char.id: char for char in characters}`: a later character with the
      same id replaces an earlier one. */
  function CharMap(characters: seq<CharacterContext>): (m: map<string, CharacterContext>)
    ensures KeyedById(m)
  {
    if |characters| == 0 then map[]
    else
      var last := characters[|characters| - 1];
      CharMap(characters[..|characters| - 1])[last.id := last]
  }

  /** The ids in the map are exactly those of the characters. */
  lemma {:induction false} CharMapKeys(characters: seq<CharacterContext>)
    ensures forall id :: id in CharMap(characters) <==> exists i :: 0 <= i < |characters| && characters[i].id == id
  {
    if |characters| > 0 {
      var n := |characters| - 1;
      CharMapKeys(characters[..n]);
      assert forall i :: 0 <= i < n ==> characters[..n][i] == characters[i];
    }
  }

  /** The character stored under an id is the last one with that id. */
  lemma {:induction false} CharMapLastWins(characters: seq<CharacterContext>, i: nat)
    requires i < |characters|
    requires forall j :: i < j < |characters| ==> characters[j].id != characters[i].id
    ensures characters[i].id in CharMap(characters) && CharMap(characters)[characters[i].id] == characters[i]
  {
    var n := |characters| - 1;
    var init := characters[..n];
    assert CharMap(characters) == CharMap(init)[characters[n].id := characters[n]];
    if i < n {
      assert forall j :: i < j < |init| ==> init[j] == characters[j];
      CharMapLastWins(init, i);
    }
  }

  function Present(o: Option<string>): seq<string> {
    if o.Some? && |o.value| > 0 then [o.value] else []
  }

  /** `speak`, `act` and `ooc`, those that are set and non-empty, joined by
      spaces. */
  function ActionText(a: Action): string {
    Join(Present(a.speak) + Present(a.act) + Present(a.ooc), " ")
  }

  function CheckFor(c: CharacterContext, t: Trigger, difficulty: Difficulty): DetectedSkillCheck {
    DetectedSkillCheck(c.id, c.name, t.skill, difficulty, "Action contains '" + t.pattern + "' trigger")
  }

  /** The checks one action of character `c` calls for: one per trigger that
      fires on its text, in table order. */
  function ChecksFor(triggers: seq<Trigger>, c: CharacterContext, text: string, difficulty: Difficulty)
    : (r: seq<DetectedSkillCheck>)
    ensures |r| <= |triggers|
  {
    if |triggers| == 0 then []
    else
      var t := triggers[|triggers| - 1];
      ChecksFor(triggers[..|triggers| - 1], c, text, difficulty)
        + (if Fires(t, text) then [CheckFor(c, t, difficulty)] else [])
  }

  /** Every check of an action is for its character, with the one
      difficulty given. */
  lemma {:induction false} ChecksForCharacter(triggers: seq<Trigger>, c: CharacterContext, text: string, difficulty: Difficulty)
    ensures forall d :: d in ChecksFor(triggers, c, text, difficulty) ==>
      d.characterId == c.id && d.characterName == c.name && d.difficulty == difficulty
  {
    if |triggers| > 0 {
      ChecksForCharacter(triggers[..|triggers| - 1], c, text, difficulty);
    }
  }

  /** Every check is for the skill of a trigger that fired. */
  lemma {:induction false} ChecksForSound(triggers: seq<Trigger>, c: CharacterContext, text: string, difficulty: Difficulty)
    ensures forall d :: d in ChecksFor(triggers, c, text, difficulty) ==>
      exists k :: 0 <= k < |triggers| && Fires(triggers[k], text) && d.skillName == triggers[k].skill
  {
    if |triggers| > 0 {
      var n := |triggers| - 1;
      ChecksForSound(triggers[..n], c, text, difficulty);
      assert forall k :: 0 <= k < n ==> triggers[..n][k] == triggers[k];
    }
  }

  /** Every trigger that fires gives its check. */
  lemma {:induction false} ChecksForComplete(triggers: seq<Trigger>, c: CharacterContext, text: string, difficulty: Difficulty, k: nat)
    requires k < |triggers| && Fires(triggers[k], text)
    ensures CheckFor(c, triggers[k], difficulty) in ChecksFor(triggers, c, text, difficulty)
  {
    var n := |triggers| - 1;
    if k < n {
      ChecksForComplete(triggers[..n], c, text, difficulty, k);
    }
  }

  /** The checks of one action: none unless its actor is a known character;
      all with the difficulty of the action's whole text. */
  function ActionChecks(triggers: seq<Trigger>, chars: map<string, CharacterContext>, a: Action): seq<DetectedSkillCheck> {
    if a.actorId == "" || a.actorId !in chars then []
    else
      var text := ActionText(a);
      ChecksFor(triggers, chars[a.actorId], text, DetermineDifficulty(text))
  }

  /** The checks of a list of actions, action by action. */
  function Detected(triggers: seq<Trigger>, chars: map<string, CharacterContext>, actions: seq<Action>): seq<DetectedSkillCheck> {
    if |actions| == 0 then []
    else Detected(triggers, chars, actions[..|actions| - 1]) + ActionChecks(triggers, chars, actions[|actions| - 1])
  }

  /** The checks of one action belong to its actor, a known character, and
      share the difficulty of the action's text. */
  lemma ActionChecksShape(triggers: seq<Trigger>, chars: map<string, CharacterContext>, a: Action)
    requires KeyedById(chars)
    ensures forall d :: d in ActionChecks(triggers, chars, a) ==>
      a.actorId != "" && a.actorId in chars && d.characterId == a.actorId
      && d.difficulty == DetermineDifficulty(ActionText(a))
  {
    if a.actorId != "" && a.actorId in chars {
      ChecksForCharacter(triggers, chars[a.actorId], ActionText(a), DetermineDifficulty(ActionText(a)));
    }
  }

  /** Detection over two runs of actions is the detection of each, in turn. */
  lemma {:induction false} DetectedConcat(triggers: seq<Trigger>, chars: map<string, CharacterContext>, a1: seq<Action>, a2: seq<Action>)
    ensures Detected(triggers, chars, a1 + a2) == Detected(triggers, chars, a1) + Detected(triggers, chars, a2)
  {
    if |a2| > 0 {
      var n := |a2| - 1;
      DetectedConcat(triggers, chars, a1, a2[..n]);
      assert (a1 + a2)[..|a1 + a2| - 1] == a1 + a2[..n];
      assert (a1 + a2)[|a1 + a2| - 1] == a2[n];
    } else {
      assert a1 + a2 == a1;
    }
  }

  /** Every detected check names a known character that acted. */
  lemma {:induction false} DetectedFromActors(triggers: seq<Trigger>, chars: map<string, CharacterContext>, actions: seq<Action>)
    requires KeyedById(chars)
    ensures forall d :: d in Detected(triggers, chars, actions) ==>
      d.characterId in chars && exists i :: 0 <= i < |actions| && actions[i].actorId == d.characterId
  {
    if |actions| > 0 {
      var n := |actions| - 1;
      var init := actions[..n];
      DetectedFromActors(triggers, chars, init);
      ActionChecksShape(triggers, chars, actions[n]);
      forall d | d in Detected(triggers, chars, actions)
        ensures d.characterId in chars && exists i :: 0 <= i < |actions| && actions[i].actorId == d.characterId
      {
        if d in Detected(triggers, chars, init) {
          var i :| 0 <= i < |init| && init[i].actorId == d.characterId;
          assert actions[i] == init[i];
        } else {
          assert actions[n].actorId == d.characterId;
        }
      }
    }
  }

  /** The inner loop of `detect_skill_checks` over the triggers, for one
      action of `c`. */
  method CheckTriggers(triggers: seq<Trigger>, c: CharacterContext, text: string, detected: seq<DetectedSkillCheck>)
    returns (out: seq<DetectedSkillCheck>)
    ensures out == detected + ChecksFor(triggers, c, text, DetermineDifficulty(text))
  {
    ghost var difficultyOfText := DetermineDifficulty(text);
    out := detected;
    var j := 0;
    while j < |triggers|
      invariant 0 <= j <= |triggers|
      invariant out == detected + ChecksFor(triggers[..j], c, text, difficultyOfText)
    {
      PrefixOfPrefix(triggers, j);
      if Fires(triggers[j], text) {
        var difficulty := DetermineDifficulty(text);
        out := out + [CheckFor(c, triggers[j], difficulty)];
      }
      j := j + 1;
    }
    PrefixWhole(triggers);
  }

  /** The text of an action, gathered part by part. */
  method CombineText(action: Action) returns (combined: string)
    ensures combined == ActionText(action)
  {
    var parts: seq<string> := [];
    if action.speak.Some? && |action.speak.value| > 0 {
      parts := parts + [action.speak.value];
    }
    assert parts == Present(action.speak);
    if action.act.Some? && |action.act.value| > 0 {
      parts := parts + [action.act.value];
    }
    assert parts == Present(action.speak) + Present(action.act);
    if action.ooc.Some? && |action.ooc.value| > 0 {
      parts := parts + [action.ooc.value];
    }
    assert parts == Present(action.speak) + Present(action.act) + Present(action.ooc);
    combined := Join(parts, " ");
  }

  /** `detect_skill_checks` over a trigger table. */
  method DetectWith(triggers: seq<Trigger>, actions: seq<Action>, characters: seq<CharacterContext>)
    returns (detected: seq<DetectedSkillCheck>)
    ensures detected == Detected(triggers, CharMap(characters), actions)
  {
    var chars := CharMap(characters);
    detected := [];
    var i := 0;
    while i < |actions|
      invariant 0 <= i <= |actions|
      invariant detected == Detected(triggers, chars, actions[..i])
    {
      PrefixOfPrefix(actions, i);
      var action := actions[i];
      if action.actorId != "" && action.actorId in chars {
        var character := chars[action.actorId];
        var combined := CombineText(action);
        detected := CheckTriggers(triggers, character, combined, detected);
      }
      i := i + 1;
    }
    PrefixWhole(actions);
  }

  /** `detect_skill_checks` with the service's trigger table. */
  method DetectSkillChecks(actions: seq<Action>, characters: seq<CharacterContext>)
    returns (detected: seq<DetectedSkillCheck>)
    ensures detected == Detected(SkillTriggers, CharMap(characters), actions)
  {
    detected := DetectWith(SkillTriggers, actions, characters);
  }

  // --------------------------------------------------------- skill value

  predicate NamedExactly(skill: CharacterSkill, name: string) {
    Lower(skill.name) == Lower(name)
  }

  predicate NamedWithPrefix(skill: CharacterSkill, base: string) {
    StartsWith(Lower(skill.name), base)
  }

  /** The first skill named `name`, ignoring case. */
  function FindExact(skills: seq<CharacterSkill>, name: string): (r: Option<int>)
    ensures r.None? <==> forall i :: 0 <= i < |skills| ==> !NamedExactly(skills[i], name)
  {
    if |skills| == 0 then None
    else if NamedExactly(skills[0], name) then Some(skills[0].value)
    else
      assert forall i :: 0 <= i < |skills| - 1 ==> skills[1..][i] == skills[i + 1];
      FindExact(skills[1..], name)
  }

  /** What `FindExact` finds is the value of the first matching skill. */
  lemma {:induction false} FindExactFirst(skills: seq<CharacterSkill>, name: string, i: nat)
    requires i < |skills| && NamedExactly(skills[i], name)
    requires forall j :: 0 <= j < i ==> !NamedExactly(skills[j], name)
    ensures FindExact(skills, name) == Some(skills[i].value)
  {
    if i > 0 {
      assert forall j :: 0 <= j < i - 1 ==> skills[1..][j] == skills[j + 1];
      FindExactFirst(skills[1..], name, i - 1);
    }
  }


  /** The first skill whose lower-cased name starts with `base`. */
  function FindPrefix(skills: seq<CharacterSkill>, base: string): (r: Option<int>)
    ensures r.None? <==> forall i :: 0 <= i < |skills| ==> !NamedWithPrefix(skills[i], base)
  {
    if |skills| == 0 then None
    else if NamedWithPrefix(skills[0], base) then Some(skills[0].value)
    else
      assert forall i :: 0 <= i < |skills| - 1 ==> skills[1..][i] == skills[i + 1];
      FindPrefix(skills[1..], base)
  }

  /** What `FindPrefix` finds is the value of the first matching skill. */
  lemma {:induction false} FindPrefixFirst(skills: seq<CharacterSkill>, base: string, i: nat)
    requires i < |skills| && NamedWithPrefix(skills[i], base)
    requires forall j :: 0 <= j < i ==> !NamedWithPrefix(skills[j], base)
    ensures FindPrefix(skills, base) == Some(skills[i].value)
  {
    if i > 0 {
      assert forall j :: 0 <= j < i - 1 ==> skills[1..][j] == skills[j + 1];
      FindPrefixFirst(skills[1..], base, i - 1);
    }
  }


  /** `skill_name.split("(")[0].strip().lower()`. */
  function SkillBase(name: string): string {
    Lower(Strip(BeforeFirst(name, '(')))
  }

  /** `_find_skill_value`: an exact match, else a specialisation match on the
      part before "(", else 0. */
  function FindSkillValue(skills: seq<CharacterSkill>, name: string): int {
    match FindExact(skills, name)
    case Some(v) => v
    case None => FindPrefix(skills, SkillBase(name)).GetOr(0)
  }

  /** An exact match wins over any earlier specialisation match. */
  lemma ExactMatchWins(skills: seq<CharacterSkill>, name: string, i: nat)
    requires i < |skills| && NamedExactly(skills[i], name)
    requires forall j :: 0 <= j < i ==> !NamedExactly(skills[j], name)
    ensures FindSkillValue(skills, name) == skills[i].value
  {
    FindExactFirst(skills, name, i);
  }

  /** With no exact match, the first specialisation match decides, and with
      neither the value is 0. */
  lemma PrefixFallback(skills: seq<CharacterSkill>, name: string)
    requires forall j :: 0 <= j < |skills| ==> !NamedExactly(skills[j], name)
    ensures FindSkillValue(skills, name) == FindPrefix(skills, SkillBase(name)).GetOr(0)
    ensures (forall j :: 0 <= j < |skills| ==> !NamedWithPrefix(skills[j], SkillBase(name)))
      ==> FindSkillValue(skills, name) == 0
  {
  }

  /** A default of the table: a number, or the `Dodge` entry, which is a
      function of DEX rather than a number. */
  datatype DefaultValue = Fixed(value: int) | NeedsDex

  const SkillDefaults: seq<(string, DefaultValue)> := [
    ("Spot Hidden", Fixed(25)), ("Listen", Fixed(25)), ("Library Use", Fixed(25)),
    ("Persuade", Fixed(15)), ("Charm", Fixed(15)), ("Intimidate", Fixed(15)),
    ("Fast Talk", Fixed(5)), ("Stealth", Fixed(10)), ("Dodge", NeedsDex),
    ("Fighting (Brawl)", Fixed(25)), ("Firearms", Fixed(20)), ("First Aid", Fixed(30)),
    ("Psychoanalysis", Fixed(1)), ("Cthulhu Mythos", Fixed(0))
  ]

  /** `defaults.get(name, fallback)` over a table of distinct names. */
  function LookupDefault(table: seq<(string, DefaultValue)>, name: string, fallback: DefaultValue): (r: DefaultValue)
    ensures (forall k :: 0 <= k < |table| ==> table[k].0 != name) ==> r == fallback
    ensures r != fallback ==> exists k :: 0 <= k < |table| && table[k] == (name, r)
  {
    if |table| == 0 then fallback
    else if table[0].0 == name then table[0].1
    else
      assert forall k :: 0 <= k < |table| - 1 ==> table[1..][k] == table[k + 1];
      LookupDefault(table[1..], name, fallback)
  }

  /** `_get_default_skill_value`: the table's entry, else base 20. */
  function DefaultSkillValue(name: string): DefaultValue {
    LookupDefault(SkillDefaults, name, Fixed(20))
  }

  /** A default other than base 20 comes from the table. */
  lemma DefaultFromTable(name: string)
    ensures DefaultSkillValue(name) == Fixed(20)
      || exists k :: 0 <= k < |SkillDefaults| && SkillDefaults[k] == (name, DefaultSkillValue(name))
  {
  }

  // ------------------------------------------------------------- rolling

  /** The stopping error of `roll_skill_checks`: the `Dodge` default is not a
      number, so halving it raises a TypeError. */
  datatype RollError = DodgeDefaultNotNumber(characterId: string)

  function Formatted(name: string, skill: string, rolled: int, value: int, level: SuccessLevel): string {
    name + " rolled " + skill + ": " + IntToString(rolled) + "/" + IntToString(value) + " (" + LevelName(level) + ")"
  }

  /** The result for a check rolled with the given skill value. */
  function ResultFor(check: DetectedSkillCheck, c: CharacterContext, value: int, rolled: int): SkillCheckResult {
    var outcome := Outcome(rolled, value);
    SkillCheckResult(
      characterId := c.id,
      characterName := c.name,
      skillName := check.skillName,
      skillValue := value,
      difficulty := check.difficulty,
      rolled := rolled,
      targetRegular := value,
      targetHard := value / 2,
      targetExtreme := value / 5,
      successLevel := outcome.0,
      success := outcome.1,
      formatted := Formatted(c.name, check.skillName, rolled, value, outcome.0))
  }

  /** One check of a known character: the skill value found, or the
      table's default (base 20 when the table has none) when the value found
      is 0. */
  function RollOne(check: DetectedSkillCheck, c: CharacterContext, rolled: int, defaults: seq<(string, DefaultValue)>)
    : Result<SkillCheckResult, RollError>
  {
    var found := FindSkillValue(c.skills, check.skillName);
    if found != 0 then Ok(ResultFor(check, c, found, rolled))
    else
      match LookupDefault(defaults, check.skillName, Fixed(20))
      case Fixed(v) => Ok(ResultFor(check, c, v, rolled))
      case NeedsDex => Err(DodgeDefaultNotNumber(c.id))
  }

  /** The results of `roll_skill_checks` when the k-th check is given the
      k-th draw: checks of unknown characters are skipped, and the first
      error stops the whole call. */
  function Rolled(detected: seq<DetectedSkillCheck>, chars: map<string, CharacterContext>, rolls: seq<int>,
                  defaults: seq<(string, DefaultValue)>)
    : Result<seq<SkillCheckResult>, RollError>
    requires |rolls| == |detected|
  {
    if |detected| == 0 then Ok([])
    else
      var n := |detected| - 1;
      var prev := Rolled(detected[..n], chars, rolls[..n], defaults);
      var check := detected[n];
      if prev.Err? || check.characterId !in chars then prev
      else
        match RollOne(check, chars[check.characterId], rolls[n], defaults)
        case Err(e) => Err(e)
        case Ok(result) => Ok(prev.value + [result])
  }

  /** A result agrees with the rules: the thresholds come from its skill
      value and its level and flag from its roll and those thresholds. */
  predicate ResultConsistent(r: SkillCheckResult) {
    && r.targetRegular == r.skillValue
    && r.targetHard == r.skillValue / 2
    && r.targetExtreme == r.skillValue / 5
    && (r.successLevel, r.success) == Outcome(r.rolled, r.skillValue)
    && (r.success <==> IsSuccessLevel(r.successLevel))
  }

  /** A successful roll of one check is consistent with the rules and
      records the check's character, skill, difficulty and draw. */
  lemma RollOneSound(check: DetectedSkillCheck, c: CharacterContext, rolled: int, defaults: seq<(string, DefaultValue)>)
    ensures RollOne(check, c, rolled, defaults).Ok? ==>
      var r := RollOne(check, c, rolled, defaults).value;
      && ResultConsistent(r) && r.rolled == rolled && r.characterId == c.id
      && r.skillName == check.skillName && r.difficulty == check.difficulty
  {
    var one := RollOne(check, c, rolled, defaults);
    if one.Ok? {
      var value := one.value.skillValue;
      SuccessFlagMatchesLevel(rolled, value, value / 2, value / 5);
    }
  }

  /** At most one result per check. */
  lemma {:induction false} RolledLength(detected: seq<DetectedSkillCheck>, chars: map<string, CharacterContext>, rolls: seq<int>,
                                        defaults: seq<(string, DefaultValue)>)
    requires |rolls| == |detected|
    ensures Rolled(detected, chars, rolls, defaults).Ok? ==> |Rolled(detected, chars, rolls, defaults).value| <= |detected|
  {
    if |detected| > 0 {
      var n := |detected| - 1;
      RolledLength(detected[..n], chars, rolls[..n], defaults);
    }
  }

  /** A result consistent with the rules, rolled in 1..100, for a known
      character. */
  predicate ResultSound(r: SkillCheckResult, chars: map<string, CharacterContext>) {
    ResultConsistent(r) && 1 <= r.rolled <= 100 && r.characterId in chars
  }

  lemma AllSoundSnoc(results: seq<SkillCheckResult>, r: SkillCheckResult, chars: map<string, CharacterContext>)
    requires forall x :: x in results ==> ResultSound(x, chars)
    requires ResultSound(r, chars)
    ensures forall x :: x in results + [r] ==> ResultSound(x, chars)
  {
  }

  /** Every result is consistent with the rules, rolled in 1..100 and for a
      known character. */
  lemma {:induction false} RolledSound(detected: seq<DetectedSkillCheck>, chars: map<string, CharacterContext>, rolls: seq<int>,
                                       defaults: seq<(string, DefaultValue)>)
    requires |rolls| == |detected|
    requires KeyedById(chars)
    requires forall k :: 0 <= k < |rolls| ==> 1 <= rolls[k] <= 100
    ensures Rolled(detected, chars, rolls, defaults).Ok? ==>
      forall r :: r in Rolled(detected, chars, rolls, defaults).value ==> ResultSound(r, chars)
  {
    if |detected| > 0 {
      var n := |detected| - 1;
      var initRolls := rolls[..n];
      assert forall k :: 0 <= k < n ==> initRolls[k] == rolls[k];
      RolledSound(detected[..n], chars, initRolls, defaults);
      var prev := Rolled(detected[..n], chars, initRolls, defaults);
      var check := detected[n];
      if prev.Ok? && check.characterId in chars {
        var one := RollOne(check, chars[check.characterId], rolls[n], defaults);
        RollOneSound(check, chars[check.characterId], rolls[n], defaults);
        if one.Ok? {
          AllSoundSnoc(prev.value, one.value, chars);
        }
      }
    }
  }

  /** The call fails only on a check of a known character who has no
      matching skill and whose skill's default is not a number. */
  lemma {:induction false} RolledFailsOnlyOnNeedsDex(detected: seq<DetectedSkillCheck>, chars: map<string, CharacterContext>,
                                                     rolls: seq<int>, defaults: seq<(string, DefaultValue)>)
    requires |rolls| == |detected|
    ensures Rolled(detected, chars, rolls, defaults).Err? ==>
      exists k :: 0 <= k < |detected| && detected[k].characterId in chars
        && LookupDefault(defaults, detected[k].skillName, Fixed(20)) == NeedsDex
        && FindSkillValue(chars[detected[k].characterId].skills, detected[k].skillName) == 0
  {
    if |detected| > 0 {
      var n := |detected| - 1;
      RolledFailsOnlyOnNeedsDex(detected[..n], chars, rolls[..n], defaults);
      assert forall k :: 0 <= k < n ==> detected[..n][k] == detected[k];
    }
  }

  /** A table whose only non-number default belongs to `who` gives a
      non-number only for `who`. */
  lemma {:induction false} LookupNeedsDexOnly(table: seq<(string, DefaultValue)>, name: string, who: string)
    requires forall k :: 0 <= k < |table| && table[k].1 == NeedsDex ==> table[k].0 == who
    ensures LookupDefault(table, name, Fixed(20)) == NeedsDex ==> name == who
  {
    if |table| > 0 && table[0].0 != name {
      assert forall k :: 0 <= k < |table| - 1 ==> table[1..][k] == table[k + 1];
      LookupNeedsDexOnly(table[1..], name, who);
    }
  }

  /** In the service's table only `Dodge` has a default that is not a
      number. */
  lemma OnlyDodgeNeedsDex(name: string)
    ensures LookupDefault(SkillDefaults, name, Fixed(20)) == NeedsDex ==> name == "Dodge"
  {
    var table := SkillDefaults;
    forall k | 0 <= k < |table| && table[k].1 == NeedsDex
      ensures table[k].0 == "Dodge"
    {
    }
    LookupNeedsDexOnly(table, name, "Dodge");
  }

  /** With the service's table, the call fails only on a `Dodge` check of a
      known character who has no skill matching "dodge". */
  lemma RolledFailsOnlyOnDodge(detected: seq<DetectedSkillCheck>, chars: map<string, CharacterContext>, rolls: seq<int>)
    requires |rolls| == |detected|
    ensures Rolled(detected, chars, rolls, SkillDefaults).Err? ==>
      exists k :: 0 <= k < |detected| && detected[k].skillName == "Dodge"
        && detected[k].characterId in chars
        && FindSkillValue(chars[detected[k].characterId].skills, "Dodge") == 0
  {
    RolledFailsOnlyOnNeedsDex(detected, chars, rolls, SkillDefaults);
    if Rolled(detected, chars, rolls, SkillDefaults).Err? {
      var k :| 0 <= k < |detected| && detected[k].characterId in chars
        && LookupDefault(SkillDefaults, detected[k].skillName, Fixed(20)) == NeedsDex
        && FindSkillValue(chars[detected[k].characterId].skills, detected[k].skillName) == 0;
      OnlyDodgeNeedsDex(detected[k].skillName);
    }
  }

  /** The difficulty of a check is carried into its result and nothing
      else: two checks that differ only in difficulty roll the same level. */
  lemma DifficultyOnlyRecorded(check: DetectedSkillCheck, d: Difficulty, c: CharacterContext, rolled: int,
                               defaults: seq<(string, DefaultValue)>)
    ensures RollOne(check, c, rolled, defaults).Ok? <==> RollOne(check.(difficulty := d), c, rolled, defaults).Ok?
    ensures RollOne(check, c, rolled, defaults).Ok? ==>
      RollOne(check.(difficulty := d), c, rolled, defaults).value
        == RollOne(check, c, rolled, defaults).value.(difficulty := d)
  {
  }

  /** `roll_skill_checks` over a table of defaults; `rolls[k]` is the d100
      drawn for the k-th check. */
  method RollWith(detected: seq<DetectedSkillCheck>, characters: seq<CharacterContext>, rolls: seq<int>,
                  defaults: seq<(string, DefaultValue)>)
    returns (r: Result<seq<SkillCheckResult>, RollError>)
    requires |rolls| == |detected|
    ensures r == Rolled(detected, CharMap(characters), rolls, defaults)
  {
    var chars := CharMap(characters);
    var results: seq<SkillCheckResult> := [];
    var i := 0;
    while i < |detected|
      invariant 0 <= i <= |detected|
      invariant Rolled(detected[..i], chars, rolls[..i], defaults) == Ok(results)
    {
      PrefixOfPrefix(detected, i);
      PrefixOfPrefix(rolls, i);
      var check := detected[i];
      if check.characterId in chars {
        var character := chars[check.characterId];
        var value := FindSkillValue(character.skills, check.skillName);
        if value == 0 {
          var fallback := LookupDefault(defaults, check.skillName, Fixed(20));
          if fallback.NeedsDex? {
            r := Err(DodgeDefaultNotNumber(character.id));
            RolledErrStays(detected, chars, rolls, defaults, i + 1);
            return;
          }
          value := fallback.value;
        }
        var rolled := rolls[i];
        var outcome := DetermineSuccess(rolled, value, value / 2, value / 5);
        var result := SkillCheckResult(
          characterId := character.id,
          characterName := character.name,
          skillName := check.skillName,
          skillValue := value,
          difficulty := check.difficulty,
          rolled := rolled,
          targetRegular := value,
          targetHard := value / 2,
          targetExtreme := value / 5,
          successLevel := outcome.0,
          success := outcome.1,
          formatted := Formatted(character.name, check.skillName, rolled, value, outcome.0));
        results := results + [result];
      }
      i := i + 1;
    }
    PrefixWhole(detected);
    PrefixWhole(rolls);
    r := Ok(results);
  }

  /** `roll_skill_checks` with the service's table of defaults. */
  method RollSkillChecks(detected: seq<DetectedSkillCheck>, characters: seq<CharacterContext>, rolls: seq<int>)
    returns (r: Result<seq<SkillCheckResult>, RollError>)
    requires |rolls| == |detected|
    ensures r == Rolled(detected, CharMap(characters), rolls, SkillDefaults)
  {
    r := RollWith(detected, characters, rolls, SkillDefaults);
  }

  /** Once an error stops the call, no later check changes the outcome. */
  lemma RolledErrStays(detected: seq<DetectedSkillCheck>, chars: map<string, CharacterContext>, rolls: seq<int>,
                       defaults: seq<(string, DefaultValue)>, i: nat)
    requires |rolls| == |detected| && i <= |detected|
    requires Rolled(detected[..i], chars, rolls[..i], defaults).Err?
    ensures Rolled(detected, chars, rolls, defaults) == Rolled(detected[..i], chars, rolls[..i], defaults)
    decreases |detected| - i
  {
    if i < |detected| {
      PrefixOfPrefix(detected, i);
      PrefixOfPrefix(rolls, i);
      RolledErrStays(detected, chars, rolls, defaults, i + 1);
    } else {
      PrefixWhole(detected);
      PrefixWhole(rolls);
    }
  }
}
