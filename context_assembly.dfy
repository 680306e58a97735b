/**
 * Context assembly: the bundle of campaign, chapter, scene, previous turns,
 * characters, NPCs and pre-rolled skill checks that is sent to the Keeper
 * workflow for one turn. The game-records database is an in-memory value;
 * the lore search is a placeholder that always returns nothing.
 */
module ContextAssembly {
  import opened Wrappers
  import opened Strings
  import opened Json
  import opened Records
  import opened TurnOrder
  import opened Sequences
  import Store

  /** How many earlier turns, participant ids and NPCs enter a bundle. */
  const MaxPreviousTurns: nat := 5
  const MaxCharacters: nat := 10
  const MaxNpcs: nat := 20
  /** The cap on the backstory digest. */
  const MaxBackstory: nat := 300

  // ------------------------------------------------------ bundle records

  /** `setting` is the stored object, or JNull when it is not an object. */
  datatype RealmContext = RealmContext(id: string, name: string, setting: Json)

  datatype CampaignContext = CampaignContext(
    id: string, name: string, setting: Json, storyArc: Option<StoryArc>)

  datatype ChapterContext = ChapterContext(
    id: string, name: string, summary: Option<string>, order: Option<int>)

  datatype PacingPhase = Establishment | Unease | Investigation | Revelation | Resolution

  datatype SceneContext = SceneContext(
    id: string,
    name: string,
    location: Option<string>,
    summary: Option<string>,
    status: UnitStatus,
    participants: seq<string>,
    turnCount: nat,
    pacingPhase: PacingPhase)

  datatype TurnSummary = TurnSummary(order: int, actions: seq<Action>, reaction: Option<Reaction>)

  datatype CharacterSkill = CharacterSkill(name: string, value: int)

  datatype PoolStat = PoolStat(current: int, max: int)

  datatype CharacterStats = CharacterStats(sanity: PoolStat, hp: PoolStat, mp: PoolStat)

  datatype CharacterContext = CharacterContext(
    id: string,
    name: string,
    occupation: Option<string>,
    age: Option<string>,
    pronoun: Option<string>,
    birthplace: Option<string>,
    residence: Option<string>,
    backstory: Option<string>,
    skills: seq<CharacterSkill>,
    stats: CharacterStats,
    conditions: seq<string>,
    aiControlled: bool,
    aiPersonality: Option<string>)

  /** A lore excerpt (its floating-point relevance score is not kept). */
  datatype LoreChunk = LoreChunk(source: string, content: string)

  datatype NpcContext = NpcContext(
    id: string,
    name: string,
    description: string,
    role: string,
    personality: string,
    goals: seq<string>,
    knowledge: seq<string>,
    currentLocation: Option<string>,
    status: string)

  /** A pre-rolled skill check as it travels in the bundle. */
  datatype SkillCheckContext = SkillCheckContext(
    characterId: string,
    characterName: string,
    skillName: string,
    skillValue: int,
    difficulty: string,
    rolled: int,
    targetRegular: int,
    targetHard: int,
    targetExtreme: int,
    successLevel: string,
    success: bool,
    formatted: string)

  datatype ContextData = ContextData(
    realm: Option<RealmContext>,
    campaign: Option<CampaignContext>,
    chapter: Option<ChapterContext>,
    scene: Option<SceneContext>,
    previousTurns: seq<TurnSummary>,
    characters: seq<CharacterContext>,
    npcs: seq<NpcContext>,
    lore: seq<LoreChunk>,
    skillChecks: seq<SkillCheckContext>)

  datatype ContextBundle = ContextBundle(
    turnId: string,
    callbackUrl: string,
    timestamp: Time,
    context: ContextData,
    actions: seq<Action>)

  /** The two ValueErrors assembly raises. */
  datatype AssemblyError = TurnNotFound(turnId: string) | NoSceneId(turnId: string)

  // --------------------------------------------------------------- pacing

  function PhaseRank(p: PacingPhase): nat {
    match p
    case Establishment => 0
    case Unease => 1
    case Investigation => 2
    case Revelation => 3
    case Resolution => 4
  }

  /** The pacing phase for a number of completed turns. */
  function PacingPhaseOf(turnCount: int): (p: PacingPhase)
    ensures p == Establishment <==> turnCount <= 5
    ensures p == Unease <==> 6 <= turnCount <= 15
    ensures p == Investigation <==> 16 <= turnCount <= 35
    ensures p == Revelation <==> 36 <= turnCount <= 45
    ensures p == Resolution <==> 46 <= turnCount
  {
    if turnCount <= 5 then Establishment
    else if turnCount <= 15 then Unease
    else if turnCount <= 35 then Investigation
    else if turnCount <= 45 then Revelation
    else Resolution
  }

  /** More completed turns never move a scene back to an earlier phase. */
  lemma PacingMonotone(m: int, n: int)
    requires m <= n
    ensures PhaseRank(PacingPhaseOf(m)) <= PhaseRank(PacingPhaseOf(n))
  {
  }

  /** The completed turns of a scene (`count_documents` on scene and status). */
  function CompletedTurnCount(turns: map<string, Turn>, sceneId: string): nat {
    |set id | id in turns && turns[id].sceneId == sceneId && turns[id].status == TurnCompleted|
  }

  // ------------------------------------------------------ integer parsing

  /** `_parse_int`: integers (booleans are integers in Python) as they are,
      strings through `int()`, anything else and every failure as 0. */
  function ParseInt(v: Json): int {
    match v
    case JInt(i) => i
    case JBool(b) => if b then 1 else 0
    case JStr(s) => if |s| == 0 then 0 else ParseIntLiteral(s).GetOr(0)
    case _ => 0
  }

  /** What `_parse_int` gives for each kind of stored value. */
  lemma ParseIntCases(v: Json)
    ensures v.JStr? && v.s == [] ==> ParseInt(v) == 0
    ensures v.JStr? && ParseIntLiteral(v.s).None? ==> ParseInt(v) == 0
    ensures v.JStr? && ParseIntLiteral(v.s).Some? ==> ParseInt(v) == ParseIntLiteral(v.s).value
    ensures v.JNull? || v.JArray? || v.JObject? ==> ParseInt(v) == 0
    ensures v.JInt? ==> ParseInt(v) == v.i
  {
    if v.JStr? && v.s == [] {
      assert Strip(v.s) == [];
    }
  }

  /** A number written the way the sheet stores it reads back unchanged. */
  lemma ParseIntRoundTrip(n: int)
    ensures ParseInt(JStr(IntToString(n))) == n
  {
    IntRoundTrip(n);
  }

  /** A skill's `reg` in `_fetch_characters`: `int(v) if v else 0`, with a
      ValueError or TypeError read as 0. */
  function ParseReg(v: Json): int {
    if !Truthy(v) then 0
    else
      match v
      case JInt(i) => i
      case JBool(b) => 1
      case JStr(s) => ParseIntLiteral(s).GetOr(0)
      case _ => 0
  }

  /** The inline parse of skill values agrees with `_parse_int` everywhere. */
  lemma ParseRegIsParseInt(v: Json)
    ensures ParseReg(v) == ParseInt(v)
  {
  }

  // ------------------------------------------------------------ skills

  /** The value of one skill entry of the stored sheet. */
  function SkillEntryValue(entry: Json): int {
    ParseReg(Get(entry, "reg", JStr("0")))
  }

  /** A skill enters the context when its entry is an object whose `reg`
      parses to a positive integer. */
  predicate KeptSkill(entry: (string, Json)) {
    entry.1.JObject? && SkillEntryValue(entry.1) > 0
  }

  /** The skills of a sheet that enter the context, in sheet order. */
  function PositiveSkills(entries: seq<(string, Json)>): (r: seq<CharacterSkill>)
    ensures |r| <= |entries|
    ensures forall k :: 0 <= k < |r| ==> r[k].value > 0
  {
    if |entries| == 0 then []
    else
      var last := entries[|entries| - 1];
      PositiveSkills(entries[..|entries| - 1])
        + (if KeptSkill(last) then [CharacterSkill(last.0, SkillEntryValue(last.1))] else [])
  }

  /** The sheet entry is kept and gives this name and value. */
  predicate Yields(entry: (string, Json), sk: CharacterSkill) {
    KeptSkill(entry) && sk == CharacterSkill(entry.0, SkillEntryValue(entry.1))
  }

  /** A skill is in the context exactly when some sheet entry is kept and
      gives that name and value. */
  lemma {:induction false} PositiveSkillsIff(entries: seq<(string, Json)>, sk: CharacterSkill)
    ensures sk in PositiveSkills(entries) <==> exists i :: 0 <= i < |entries| && Yields(entries[i], sk)
  {
    if |entries| > 0 {
      var init := entries[..|entries| - 1];
      PositiveSkillsIff(init, sk);
      PositiveSkillsSnoc(entries, sk);
      ExistsYieldsSnoc(entries, init, sk);
    }
  }

  /** A skill is in the context of a sheet exactly when it is in the context
      of all but the last entry or the last entry yields it. */
  lemma PositiveSkillsSnoc(entries: seq<(string, Json)>, sk: CharacterSkill)
    requires |entries| > 0
    ensures sk in PositiveSkills(entries) <==>
      sk in PositiveSkills(entries[..|entries| - 1]) || Yields(entries[|entries| - 1], sk)
  {
  }

  lemma ExistsYieldsSnoc(entries: seq<(string, Json)>, init: seq<(string, Json)>, sk: CharacterSkill)
    requires |entries| > 0 && init == entries[..|entries| - 1]
    ensures (exists i :: 0 <= i < |entries| && Yields(entries[i], sk)) <==>
      (exists i :: 0 <= i < |init| && Yields(init[i], sk)) || Yields(entries[|entries| - 1], sk)
  {
    if i :| 0 <= i < |entries| && Yields(entries[i], sk) {
      if i < |init| {
        assert init[i] == entries[i];
      }
    }
    if i :| 0 <= i < |init| && Yields(init[i], sk) {
      assert entries[i] == init[i];
    }
  }

  /** The skill loop of `_fetch_characters`. */
  method ExtractSkills(entries: seq<(string, Json)>) returns (skills: seq<CharacterSkill>)
    ensures skills == PositiveSkills(entries)
  {
    skills := [];
    var i := 0;
    while i < |entries|
      invariant 0 <= i <= |entries|
      invariant skills == PositiveSkills(entries[..i])
    {
      var name := entries[i].0;
      var data := entries[i].1;
      if data.JObject? {
        var value := ParseReg(Get(data, "reg", JStr("0")));
        if value > 0 {
          skills := skills + [CharacterSkill(name, value)];
        }
      }
      assert entries[..i + 1][..i] == entries[..i];
      i := i + 1;
    }
    assert entries[..i] == entries;
  }

  // --------------------------------------------------------------- stats

  function PoolStatOf(pool: Json): PoolStat {
    PoolStat(ParseInt(Get(pool, "current", JInt(0))), ParseInt(Get(pool, "max", JInt(0))))
  }

  /** A point pool stored as text by the sheet reads back as its numbers. */
  lemma PoolStatOfStoredPool(current: int, max: int)
    ensures PoolStatOf(PoolDocument(PointPool(IntToString(max), IntToString(current))))
      == PoolStat(current, max)
  {
    var doc := PoolDocument(PointPool(IntToString(max), IntToString(current)));
    assert Get(doc, "current", JInt(0)) == JStr(IntToString(current));
    assert Get(doc, "max", JInt(0)) == JStr(IntToString(max));
    ParseIntRoundTrip(current);
    ParseIntRoundTrip(max);
  }

  // ---------------------------------------------------------- conditions

  const ConditionKeys: seq<string> :=
    ["temporary_insanity", "indefinite_insanity", "major_wound", "unconscious", "dying"]
  const ConditionLabels: seq<string> :=
    ["Temporary Insanity", "Indefinite Insanity", "Major Wound", "Unconscious", "Dying"]

  predicate Flag(status: Json, key: string) {
    Truthy(Get(status, key, JNull))
  }

  function When(flag: bool, text: string): seq<string> {
    if flag then [text] else []
  }

  /** The labels whose flag is set, in table order. */
  function FlaggedLabels(keys: seq<string>, labels: seq<string>, status: Json): (r: seq<string>)
    requires |keys| == |labels|
    ensures forall x :: x in r ==> x in labels
  {
    if |keys| == 0 then []
    else When(Flag(status, keys[0]), labels[0]) + FlaggedLabels(keys[1..], labels[1..], status)
  }

  /** The conditions a status block reports. */
  function Conditions(status: Json): seq<string> {
    FlaggedLabels(ConditionKeys, ConditionLabels, status)
  }

  predicate Distinct(labels: seq<string>) {
    forall i, j :: 0 <= i < j < |labels| ==> labels[i] != labels[j]
  }

  /** With distinct labels, a label is reported exactly when its flag is set. */
  lemma {:induction false} FlaggedLabelsIff(keys: seq<string>, labels: seq<string>, status: Json, k: nat)
    requires |keys| == |labels| && Distinct(labels) && k < |keys|
    ensures labels[k] in FlaggedLabels(keys, labels, status) <==> Flag(status, keys[k])
  {
    var rest := FlaggedLabels(keys[1..], labels[1..], status);
    if k == 0 {
      assert labels[0] !in labels[1..];
      assert labels[0] !in rest;
    } else {
      FlaggedLabelsIff(keys[1..], labels[1..], status, k - 1);
      assert labels[k] != labels[0];
    }
  }

  /** Every reported condition has its flag set, every set flag is
      reported, and nothing but the five labels is ever reported. */
  lemma ConditionsExact(status: Json)
    ensures forall k :: 0 <= k < 5 ==> (ConditionLabels[k] in Conditions(status) <==> Flag(status, ConditionKeys[k]))
    ensures forall x :: x in Conditions(status) ==> x in ConditionLabels
  {
    forall k | 0 <= k < 5
      ensures ConditionLabels[k] in Conditions(status) <==> Flag(status, ConditionKeys[k])
    {
      FlaggedLabelsIff(ConditionKeys, ConditionLabels, status, k);
    }
  }

  /** With no flag of the table set, nothing is reported. */
  lemma {:induction false} NothingFlagged(keys: seq<string>, labels: seq<string>, status: Json)
    requires |keys| == |labels|
    requires forall k :: 0 <= k < |keys| ==> !Flag(status, keys[k])
    ensures FlaggedLabels(keys, labels, status) == []
  {
    if |keys| > 0 {
      assert !Flag(status, keys[0]);
      assert forall k :: 0 <= k < |keys[1..]| ==> keys[1..][k] == keys[k + 1];
      NothingFlagged(keys[1..], labels[1..], status);
    }
  }

  /** The filter over a table is the filter over all but its last entry,
      followed by that entry's label when its flag is set. */
  lemma {:induction false} FlaggedLabelsSnoc(keys: seq<string>, labels: seq<string>, status: Json)
    requires |keys| == |labels| > 0
    ensures FlaggedLabels(keys, labels, status)
      == FlaggedLabels(keys[..|keys| - 1], labels[..|labels| - 1], status)
         + When(Flag(status, keys[|keys| - 1]), labels[|labels| - 1])
  {
    var n := |keys|;
    if n > 1 {
      FlaggedLabelsSnoc(keys[1..], labels[1..], status);
      assert keys[1..][..n - 2] == keys[..n - 1][1..];
      assert labels[1..][..n - 2] == labels[..n - 1][1..];
    } else {
      assert keys[..0] == [] && labels[..0] == [];
    }
  }

  /** The checks of `_fetch_characters`, one per table entry in table
      order, appending the label of each set flag; run on the condition
      table. */
  method CollectFlagged(keys: seq<string>, labels: seq<string>, status: Json)
    returns (conditions: seq<string>)
    requires |keys| == |labels|
    ensures conditions == FlaggedLabels(keys, labels, status)
  {
    conditions := [];
    var i := 0;
    while i < |keys|
      invariant 0 <= i <= |keys|
      invariant conditions == FlaggedLabels(keys[..i], labels[..i], status)
    {
      FlaggedLabelsSnoc(keys[..i + 1], labels[..i + 1], status);
      assert keys[..i + 1][..i] == keys[..i];
      assert labels[..i + 1][..i] == labels[..i];
      if Flag(status, keys[i]) {
        conditions := conditions + [labels[i]];
      }
      i := i + 1;
    }
    assert keys[..i] == keys && labels[..i] == labels;
  }

  /** A fresh sheet (all flags false) reports no condition. */
  lemma NoConditionsOnNewSheet()
    ensures Conditions(StatusDocument(DefaultCharacterStatus())) == []
  {
    var status := StatusDocument(DefaultCharacterStatus());
    assert forall key :: key in status.fields ==> status.fields[key] == JBool(false);
    NothingFlagged(ConditionKeys, ConditionLabels, status);
  }

  // ----------------------------------------------------------- backstory

  /** A digest entry: the backstory field read, the text put before it and
      how many of its characters are kept. */
  datatype DigestField = DigestField(key: string, prefix: string, limit: nat)

  /** `_summarize_backstory` reads these fields, in this order. */
  const DigestFields: seq<DigestField> := [
    DigestField("personal_description", "", 100),
    DigestField("traits", "Traits: ", 80),
    DigestField("ideology_beliefs", "Beliefs: ", 80)
  ]

  function Text(doc: Json, key: string): string {
    AsString(Get(doc, key, JNull), "")
  }

  /** A field that is set holds text (slicing anything else fails). */
  predicate TextWhereSet(backstory: Json, fields: seq<DigestField>) {
    forall i :: 0 <= i < |fields| ==> (Flag(backstory, fields[i].key) ==> Get(backstory, fields[i].key, JNull).JStr?)
  }

  predicate BackstoryShaped(backstory: Json) {
    TextWhereSet(backstory, DigestFields)
  }

  /** One part per set field: its prefix and the first `limit` characters. */
  function DigestParts(backstory: Json, fields: seq<DigestField>): seq<string> {
    if |fields| == 0 then []
    else
      (if Flag(backstory, fields[0].key)
       then [fields[0].prefix + Take(Text(backstory, fields[0].key), fields[0].limit)]
       else [])
      + DigestParts(backstory, fields[1..])
  }

  /** `_summarize_backstory`. */
  function SummarizeBackstory(backstory: Json): (r: Option<string>)
  {
    if !Truthy(backstory) then None
    else
      var parts := DigestParts(backstory, DigestFields);
      if |parts| == 0 then None
      else
        var summary := Join(parts, " | ");
        if |summary| == 0 then None else Some(Take(summary, MaxBackstory))
  }

  function SumLengths(parts: seq<string>): nat {
    if |parts| == 0 then 0 else |parts[0]| + SumLengths(parts[1..])
  }

  /** The most characters the parts of a table can hold. */
  function Capacity(fields: seq<DigestField>): nat {
    if |fields| == 0 then 0 else |fields[0].prefix| + fields[0].limit + Capacity(fields[1..])
  }

  lemma JoinLength(parts: seq<string>, sep: string)
    ensures |Join(parts, sep)| <= (if parts == [] then 0 else (|parts| - 1) * |sep|) + SumLengths(parts)
  {
    if |parts| > 1 {
      JoinLength(parts[1..], sep);
    }
  }

  lemma DigestPartsStep(backstory: Json, fields: seq<DigestField>)
    requires fields != []
    ensures DigestParts(backstory, fields)
      == (if Flag(backstory, fields[0].key)
          then [fields[0].prefix + Take(Text(backstory, fields[0].key), fields[0].limit)]
          else [])
         + DigestParts(backstory, fields[1..])
  {
  }

  /** There is at most one part per field and no part is longer than its
      field allows. */
  lemma {:induction false} DigestPartsBound(backstory: Json, fields: seq<DigestField>)
    ensures |DigestParts(backstory, fields)| <= |fields|
    ensures SumLengths(DigestParts(backstory, fields)) <= Capacity(fields)
  {
    if fields != [] {
      var f := fields[0];
      var head := if Flag(backstory, f.key) then [f.prefix + Take(Text(backstory, f.key), f.limit)] else [];
      DigestPartsBound(backstory, fields[1..]);
      DigestPartsStep(backstory, fields);
      SumLengthsAppend(head, DigestParts(backstory, fields[1..]));
    }
  }

  /** A part is made exactly when some field is set. */
  lemma {:induction false} DigestPartsEmptyIff(backstory: Json, fields: seq<DigestField>)
    ensures DigestParts(backstory, fields) == [] <==> forall i :: 0 <= i < |fields| ==> !Flag(backstory, fields[i].key)
  {
    if fields != [] {
      DigestPartsEmptyIff(backstory, fields[1..]);
      DigestPartsStep(backstory, fields);
      if forall i :: 0 <= i < |fields| ==> !Flag(backstory, fields[i].key) {
        assert !Flag(backstory, fields[0].key);
        forall i | 0 <= i < |fields[1..]|
          ensures !Flag(backstory, fields[1..][i].key)
        {
          assert fields[1..][i] == fields[i + 1];
        }
      } else {
        var i :| 0 <= i < |fields| && Flag(backstory, fields[i].key);
        if i > 0 {
          assert fields[1..][i - 1] == fields[i];
        }
      }
    }
  }

  /** With positive limits and text in every set field, no part is empty. */
  lemma {:induction false} DigestPartsNonEmpty(backstory: Json, fields: seq<DigestField>)
    requires TextWhereSet(backstory, fields)
    requires forall i :: 0 <= i < |fields| ==> fields[i].limit > 0
    ensures forall k :: 0 <= k < |DigestParts(backstory, fields)| ==> DigestParts(backstory, fields)[k] != []
  {
    if fields != [] {
      var f := fields[0];
      assert TextWhereSet(backstory, fields[1..]) by {
        forall i | 0 <= i < |fields[1..]|
          ensures Flag(backstory, fields[1..][i].key) ==> Get(backstory, fields[1..][i].key, JNull).JStr?
        {
          assert fields[1..][i] == fields[i + 1];
        }
      }
      assert forall i :: 0 <= i < |fields[1..]| ==> fields[1..][i].limit > 0;
      DigestPartsNonEmpty(backstory, fields[1..]);
      DigestPartsStep(backstory, fields);
      if Flag(backstory, f.key) {
        assert f.limit > 0 && |Text(backstory, f.key)| > 0;
      }
    }
  }

  /** The digest is absent exactly when none of the three fields is set. */
  lemma BackstoryDigestAbsent(backstory: Json)
    requires BackstoryShaped(backstory)
    ensures SummarizeBackstory(backstory).None? <==>
      !Flag(backstory, "personal_description") && !Flag(backstory, "traits")
        && !Flag(backstory, "ideology_beliefs")
  {
    var parts := DigestParts(backstory, DigestFields);
    var keys := [DigestFields[0].key, DigestFields[1].key, DigestFields[2].key];
    assert keys == ["personal_description", "traits", "ideology_beliefs"];
    DigestPartsEmptyIff(backstory, DigestFields);
    if Flag(backstory, keys[0]) || Flag(backstory, keys[1]) || Flag(backstory, keys[2]) {
      assert Truthy(backstory);
      assert parts != [];
      DigestPartsNonEmpty(backstory, DigestFields);
      JoinNonEmpty(parts, " | ");
    } else {
      assert forall i :: 0 <= i < |DigestFields| ==> !Flag(backstory, DigestFields[i].key);
      assert parts == [];
    }
  }

  /** At most three non-empty parts of at most 277 characters in all join
      to a non-empty text of at most 283 characters. */
  lemma JoinedDigestBound(parts: seq<string>)
    requires 0 < |parts| <= 3 && SumLengths(parts) <= 277 && parts[0] != []
    ensures 0 < |Join(parts, " | ")| <= 283
  {
    JoinLength(parts, " | ");
    JoinNonEmpty(parts, " | ");
  }

  /** A digest is the parts joined by " | " and is never longer than the
      cap; in fact the truncations keep it within 100 + 3 + 88 + 3 + 89 =
      283 characters, so the cap itself never cuts. */
  lemma BackstoryDigestBound(backstory: Json)
    requires BackstoryShaped(backstory)
    ensures SummarizeBackstory(backstory).Some? ==>
      |SummarizeBackstory(backstory).value| <= 283
      && SummarizeBackstory(backstory).value == Join(DigestParts(backstory, DigestFields), " | ")
  {
    var parts := DigestParts(backstory, DigestFields);
    if |parts| > 0 {
      DigestTable();
      DigestPartsBound(backstory, DigestFields);
      DigestPartsNonEmpty(backstory, DigestFields);
      JoinedDigestBound(parts);
    }
  }

  /** The digest table: three fields, 277 characters of parts at most, and
      no limit of zero. */
  lemma DigestTable()
    ensures |DigestFields| == 3 && Capacity(DigestFields) == 277
    ensures forall i :: 0 <= i < |DigestFields| ==> DigestFields[i].limit > 0
  {
  }

  lemma SumLengthsAppend(a: seq<string>, b: seq<string>)
    ensures SumLengths(a + b) == SumLengths(a) + SumLengths(b)
  {
    if a != [] {
      assert (a + b)[1..] == a[1..] + b;
      SumLengthsAppend(a[1..], b);
    } else {
      assert a + b == b;
    }
  }

  lemma JoinNonEmpty(parts: seq<string>, sep: string)
    requires parts != [] && parts[0] != []
    ensures Join(parts, sep) != []
  {
  }

  // ---------------------------------------------------- entity documents

  function Field(doc: Json, key: string): Option<Json> {
    if doc.JObject? && key in doc.fields then Some(doc.fields[key]) else None
  }

  predicate TextIfPresent(doc: Json, key: string) {
    Field(doc, key).None? || Field(doc, key).value.JStr?
  }

  predicate OptionalTextIfPresent(doc: Json, key: string) {
    Field(doc, key).None? || Field(doc, key).value.JStr? || Field(doc, key).value.JNull?
  }

  predicate ObjectIfPresent(doc: Json, key: string) {
    Field(doc, key).None? || Field(doc, key).value.JObject?
  }

  predicate TextListIfPresent(doc: Json, key: string) {
    Field(doc, key).None?
    || (Field(doc, key).value.JArray?
        && forall k :: 0 <= k < |Field(doc, key).value.items| ==> Field(doc, key).value.items[k].JStr?)
  }

  function OptionalText(doc: Json, key: string): Option<string> {
    var v := Get(doc, key, JNull);
    if v.JStr? then Some(v.s) else None
  }

  function TextList(v: Json): seq<string> {
    if v.JArray? then seq(|v.items|, k requires 0 <= k < |v.items| => AsString(v.items[k], "")) else []
  }

  const Empty: Json := JObject([], map[])

  /** What the services need of a stored character to build its context
      without a TypeError or a validation error: the nested blocks it calls
      `.get` on are objects, and the fields it copies have their types. */
  predicate CharacterShaped(doc: Json) {
    && doc.JObject?
    && TextIfPresent(doc, "id") && TextIfPresent(doc, "name")
    && (Field(doc, "ai_controlled").None? || Field(doc, "ai_controlled").value.JBool?)
    && OptionalTextIfPresent(doc, "ai_personality")
    && ObjectIfPresent(doc, "data")
    && var data := Get(doc, "data", Empty);
    && ObjectIfPresent(data, "skills") && ObjectIfPresent(data, "hit_points")
    && ObjectIfPresent(data, "magic_points") && ObjectIfPresent(data, "sanity")
    && ObjectIfPresent(data, "status") && ObjectIfPresent(data, "story")
    && ObjectIfPresent(Get(data, "story", Empty), "backstory")
    && BackstoryShaped(BackstoryOf(doc))
    && var inv := Get(data, "investigator", Empty);
    && (inv.JObject? ==>
          OptionalTextIfPresent(inv, "occupation") && OptionalTextIfPresent(inv, "age")
          && OptionalTextIfPresent(inv, "pronoun") && OptionalTextIfPresent(inv, "birthplace")
          && OptionalTextIfPresent(inv, "residence"))
  }

  predicate NpcShaped(doc: Json) {
    && doc.JObject?
    && TextIfPresent(doc, "id") && TextIfPresent(doc, "name")
    && TextIfPresent(doc, "description") && TextIfPresent(doc, "role")
    && TextIfPresent(doc, "personality") && TextIfPresent(doc, "status")
    && OptionalTextIfPresent(doc, "current_location")
    && TextListIfPresent(doc, "goals") && TextListIfPresent(doc, "knowledge")
  }

  function InvestigatorText(inv: Json, key: string): Option<string> {
    if inv.JObject? then OptionalText(inv, key) else None
  }

  function SkillEntries(data: Json): seq<(string, Json)> {
    var skills := Get(data, "skills", Empty);
    if skills.JObject? then Entries(skills.keys, skills.fields) else []
  }

  /** `data.story.backstory` of a stored character. */
  function BackstoryOf(doc: Json): Json {
    Get(Get(Get(doc, "data", Empty), "story", Empty), "backstory", Empty)
  }

  /** The context built for one stored character, with the skills and
      conditions given. */
  function CharacterWith(doc: Json, skills: seq<CharacterSkill>, conditions: seq<string>): CharacterContext
  {
    var data := Get(doc, "data", Empty);
    var inv := Get(data, "investigator", Empty);
    var aiControlled := Get(doc, "ai_controlled", JBool(false));
    CharacterContext(
      id := AsString(Get(doc, "id", JStr("")), ""),
      name := AsString(Get(doc, "name", JStr("Unknown")), "Unknown"),
      occupation := InvestigatorText(inv, "occupation"),
      age := InvestigatorText(inv, "age"),
      pronoun := InvestigatorText(inv, "pronoun"),
      birthplace := InvestigatorText(inv, "birthplace"),
      residence := InvestigatorText(inv, "residence"),
      backstory := SummarizeBackstory(BackstoryOf(doc)),
      skills := skills,
      stats := CharacterStats(
        sanity := PoolStatOf(Get(data, "sanity", Empty)),
        hp := PoolStatOf(Get(data, "hit_points", Empty)),
        mp := PoolStatOf(Get(data, "magic_points", Empty))),
      conditions := conditions,
      aiControlled := aiControlled.JBool? && aiControlled.b,
      aiPersonality := OptionalText(doc, "ai_personality"))
  }

  /** The context of one stored character. */
  function CharacterOf(doc: Json): CharacterContext
  {
    var data := Get(doc, "data", Empty);
    CharacterWith(doc, PositiveSkills(SkillEntries(data)), Conditions(Get(data, "status", Empty)))
  }

  /** The body of the loop of `_fetch_characters` for one document. */
  method BuildCharacter(doc: Json) returns (c: CharacterContext)
    ensures c == CharacterOf(doc)
  {
    var data := Get(doc, "data", Empty);
    var skills := ExtractSkills(SkillEntries(data));
    var conditions := CollectFlagged(ConditionKeys, ConditionLabels, Get(data, "status", Empty));
    c := CharacterWith(doc, skills, conditions);
  }

  function NpcOf(doc: Json): NpcContext
  {
    NpcContext(
      id := AsString(Get(doc, "id", JStr("")), ""),
      name := AsString(Get(doc, "name", JStr("Unknown")), "Unknown"),
      description := AsString(Get(doc, "description", JStr("")), ""),
      role := AsString(Get(doc, "role", JStr("neutral")), "neutral"),
      personality := AsString(Get(doc, "personality", JStr("")), ""),
      goals := TextList(Get(doc, "goals", JArray([]))),
      knowledge := TextList(Get(doc, "knowledge", JArray([]))),
      currentLocation := OptionalText(doc, "current_location"),
      status := AsString(Get(doc, "status", JStr("active")), "active"))
  }

  /** The filter `{"id": {"$in": ids}, "kind": kind}`. */
  predicate EntityMatches(e: Json, ids: seq<string>, kind: string) {
    Get(e, "id", JNull).JStr? && Get(e, "id", JNull).s in ids && Get(e, "kind", JNull) == JStr(kind)
  }

  /** The matching entities, in the collection's natural order. */
  function Matching(entities: seq<Json>, ids: seq<string>, kind: string): (r: seq<Json>)
    ensures |r| <= |entities|
    ensures forall e :: e in r <==> e in entities && EntityMatches(e, ids, kind)
  {
    if |entities| == 0 then []
    else
      assert entities == [entities[0]] + entities[1..];
      (if EntityMatches(entities[0], ids, kind) then [entities[0]] else [])
        + Matching(entities[1..], ids, kind)
  }

  /** `find(filter).to_list(length=limit)`. */
  function Select(entities: seq<Json>, ids: seq<string>, kind: string, limit: nat): (r: seq<Json>)
    ensures |r| <= limit
    ensures forall e :: e in r ==> e in entities && EntityMatches(e, ids, kind)
  {
    var m := Matching(entities, ids, kind);
    if |m| <= limit then m else m[..limit]
  }

  function FirstIds(ids: seq<string>, n: nat): (r: seq<string>)
    ensures |r| <= n
    ensures forall x :: x in r ==> x in ids
  {
    if |ids| <= n then ids else ids[..n]
  }

  predicate CharactersShaped(entities: seq<Json>) {
    forall e :: e in entities && Get(e, "kind", JNull) == JStr("pc") ==> CharacterShaped(e)
  }

  predicate NpcsShaped(entities: seq<Json>) {
    forall e :: e in entities && Get(e, "kind", JNull) == JStr("npc") ==> NpcShaped(e)
  }

  /** The stored player characters `_fetch_characters` reads. */
  function CharacterDocs(entities: seq<Json>, characterIds: seq<string>): (docs: seq<Json>)
    requires CharactersShaped(entities)
    ensures |docs| <= MaxCharacters
    ensures forall e :: e in docs ==> CharacterShaped(e) && EntityMatches(e, FirstIds(characterIds, MaxCharacters), "pc")
  {
    if |characterIds| == 0 then []
    else Select(entities, FirstIds(characterIds, MaxCharacters), "pc", MaxCharacters)
  }

  /** The stored NPCs `_fetch_npcs` reads. */
  function NpcDocs(entities: seq<Json>, npcIds: seq<string>): (docs: seq<Json>)
    requires NpcsShaped(entities)
    ensures |docs| <= MaxNpcs
    ensures forall e :: e in docs ==> EntityMatches(e, npcIds, "npc")
  {
    if |npcIds| == 0 then [] else Select(entities, npcIds, "npc", MaxNpcs)
  }

  /** A fetched character keeps the id it was selected by. */
  lemma CharacterIdSelected(e: Json, ids: seq<string>)
    requires EntityMatches(e, ids, "pc")
    ensures CharacterOf(e).id in ids
  {
  }

  lemma NpcIdSelected(e: Json, ids: seq<string>)
    requires EntityMatches(e, ids, "npc")
    ensures NpcOf(e).id in ids
  {
  }

  /** One context per document, in document order. */
  function CharactersOf(docs: seq<Json>): (r: seq<CharacterContext>)
    ensures |r| == |docs|
    ensures forall k :: 0 <= k < |docs| ==> r[k] == CharacterOf(docs[k])
  {
    seq(|docs|, k requires 0 <= k < |docs| => CharacterOf(docs[k]))
  }

  /** The loop of `_fetch_characters` over the fetched documents. */
  method BuildCharacters(docs: seq<Json>) returns (characters: seq<CharacterContext>)
    ensures characters == CharactersOf(docs)
  {
    ghost var expected := CharactersOf(docs);
    characters := [];
    var i := 0;
    while i < |docs|
      invariant 0 <= i <= |docs|
      invariant characters == expected[..i]
    {
      var c := BuildCharacter(docs[i]);
      assert c == expected[i];
      characters := characters + [c];
      PrefixSnoc(expected, i);
      i := i + 1;
    }
    PrefixWhole(expected);
  }

  /** Contexts built one per selected document keep the selecting ids. */
  lemma CharacterIdsSelected(docs: seq<Json>, ids: seq<string>)
    requires forall e :: e in docs ==> EntityMatches(e, ids, "pc")
    ensures forall c :: c in CharactersOf(docs) ==> c.id in ids
  {
    forall c | c in CharactersOf(docs)
      ensures c.id in ids
    {
      var k :| 0 <= k < |docs| && CharactersOf(docs)[k] == c;
      assert docs[k] in docs;
      CharacterIdSelected(docs[k], ids);
    }
  }

  /** `_fetch_characters`: the player characters among the first ten ids,
      one context per fetched document, in fetch order. */
  method FetchCharacters(entities: seq<Json>, characterIds: seq<string>)
    returns (characters: seq<CharacterContext>)
    requires CharactersShaped(entities)
    ensures characters == CharactersOf(CharacterDocs(entities, characterIds))
    ensures |characters| <= MaxCharacters
    ensures forall c :: c in characters ==> c.id in FirstIds(characterIds, MaxCharacters)
  {
    var docs := CharacterDocs(entities, characterIds);
    characters := BuildCharacters(docs);
    CharacterIdsSelected(docs, FirstIds(characterIds, MaxCharacters));
  }

  /** One context per NPC document, in document order. */
  function NpcsOf(docs: seq<Json>): (r: seq<NpcContext>)
    ensures |r| == |docs|
    ensures forall k :: 0 <= k < |docs| ==> r[k] == NpcOf(docs[k])
  {
    seq(|docs|, k requires 0 <= k < |docs| => NpcOf(docs[k]))
  }

  /** Contexts built one per selected NPC document keep the selecting ids. */
  lemma NpcIdsSelected(docs: seq<Json>, ids: seq<string>)
    requires forall e :: e in docs ==> EntityMatches(e, ids, "npc")
    ensures forall n :: n in NpcsOf(docs) ==> n.id in ids
  {
    forall n | n in NpcsOf(docs)
      ensures n.id in ids
    {
      var k :| 0 <= k < |docs| && NpcsOf(docs)[k] == n;
      assert docs[k] in docs;
      NpcIdSelected(docs[k], ids);
    }
  }

  /** `_fetch_npcs`: at most twenty NPCs among the scene's ids. */
  method FetchNpcs(entities: seq<Json>, npcIds: seq<string>) returns (npcs: seq<NpcContext>)
    requires NpcsShaped(entities)
    ensures npcs == NpcsOf(NpcDocs(entities, npcIds))
    ensures |npcs| <= MaxNpcs
    ensures forall n :: n in npcs ==> n.id in npcIds
  {
    var docs := NpcDocs(entities, npcIds);
    ghost var expected := NpcsOf(docs);
    npcs := [];
    var i := 0;
    while i < |docs|
      invariant 0 <= i <= |docs|
      invariant npcs == expected[..i]
    {
      npcs := npcs + [NpcOf(docs[i])];
      PrefixSnoc(expected, i);
      i := i + 1;
    }
    PrefixWhole(expected);
    NpcIdsSelected(docs, npcIds);
  }

  /** `_fetch_lore_context`: the retrieval is not implemented yet. */
  function FetchLore(actions: seq<Action>): (r: seq<LoreChunk>)
    ensures r == []
  {
    []
  }

  // ------------------------------------------------------ previous turns

  /** A turn of the same scene that comes strictly before the current one. */
  predicate Precedes(t: Turn, sceneId: string, currentOrder: int) {
    t.sceneId == sceneId && t.order < currentOrder
  }

  function Summarize(t: Turn): TurnSummary {
    TurnSummary(t.order, t.actions, t.reaction)
  }

  /** The ids of the earlier turns of the scene. */
  function EarlierIds(turns: map<string, Turn>, sceneId: string, currentOrder: int): set<string> {
    set id | id in turns && Precedes(turns[id], sceneId, currentOrder)
  }

  /** The query `find({scene_id, order < current})`: every earlier turn of
      the scene, each once, in no particular order. */
  method CollectEarlier(turns: map<string, Turn>, sceneId: string, currentOrder: int)
    returns (candidates: seq<Turn>)
    requires Store.TurnsKeyed(turns)
    ensures Store.StoredOnce(turns, candidates)
    ensures |candidates| == |EarlierIds(turns, sceneId, currentOrder)|
    ensures forall t :: t in candidates ==> t in turns.Values && Precedes(t, sceneId, currentOrder)
    ensures forall t :: t in turns.Values && Precedes(t, sceneId, currentOrder) ==> t in candidates
  {
    var keep := (t: Turn) => Precedes(t, sceneId, currentOrder);
    candidates := Store.FindTurns(turns, keep);
    assert Store.MatchingIds(turns, keep) == EarlierIds(turns, sceneId, currentOrder);
    forall t | t in turns.Values && Precedes(t, sceneId, currentOrder)
      ensures t in candidates
    {
      var id :| id in turns && turns[id] == t;
      assert id in Store.MatchingIds(turns, keep);
    }
  }

  /** `.sort("order", -1).limit(n)`: the n candidates with the highest orders,
      newest first. */
  function LatestWindow(candidates: seq<Turn>, n: nat): (w: seq<Turn>)
    ensures |w| == if |candidates| <= n then |candidates| else n
    ensures multiset(w) <= multiset(candidates)
    ensures Descending(w)
  {
    var sorted := SortDescending(candidates);
    if |sorted| <= n then sorted
    else
      assert sorted == sorted[..n] + sorted[n..];
      sorted[..n]
  }

  /** The first n of a newest-first arrangement of the candidates hold
      only candidates, and a candidate left out is no newer than every turn
      kept. */
  lemma PrefixSelects(sorted: seq<Turn>, candidates: seq<Turn>, n: nat, window: seq<Turn>)
    requires n > 0 && Descending(sorted) && multiset(sorted) == multiset(candidates)
    requires window == if |sorted| <= n then sorted else sorted[..n]
    ensures forall t :: t in window ==> t in candidates
    ensures forall t :: t in candidates && t !in window ==> |window| == n > 0 && t.order <= window[n - 1].order
  {
    forall t | t in window
      ensures t in candidates
    {
      var j :| 0 <= j < |window| && window[j] == t;
      assert sorted[j] == t;
      assert t in multiset(sorted);
    }
    forall t | t in candidates && t !in window
      ensures |window| == n > 0 && t.order <= window[n - 1].order
    {
      assert t in multiset(candidates);
      assert t in multiset(sorted);
      var p :| 0 <= p < |sorted| && sorted[p] == t;
      assert |sorted| > n;
      assert window[n - 1] == sorted[n - 1];
    }
  }

  /** The window holds only candidates, and a candidate left out of it is
      no newer than every turn in a full window. */
  lemma LatestWindowSelects(candidates: seq<Turn>, n: nat)
    requires n > 0
    ensures forall t :: t in LatestWindow(candidates, n) ==> t in candidates
    ensures forall t :: t in candidates && t !in LatestWindow(candidates, n) ==>
      |LatestWindow(candidates, n)| == n > 0 && t.order <= LatestWindow(candidates, n)[n - 1].order
  {
    PrefixSelects(SortDescending(candidates), candidates, n, LatestWindow(candidates, n));
  }

  /** Read backwards, a newest-first sequence is oldest-first. */
  lemma ReverseOfDescending(s: seq<Turn>)
    requires Descending(s)
    ensures Ascending(Reverse(s))
  {
    var r := Reverse(s);
    forall i, j | 0 <= i < j < |r|
      ensures r[i].order <= r[j].order
    {
      assert r[i] == s[|s| - 1 - i] && r[j] == s[|s| - 1 - j];
    }
  }

  /** Reversing keeps exactly the same turns. */
  lemma ReverseMembers(s: seq<Turn>)
    ensures forall t :: t in Reverse(s) <==> t in s
  {
    var r := Reverse(s);
    forall t | t in s
      ensures t in r
    {
      var p :| 0 <= p < |s| && s[p] == t;
      assert r[|s| - 1 - p] == t;
    }
  }

  /** What reversing a newest-first window of candidates gives. */
  lemma ReversedWindow(window: seq<Turn>, candidates: seq<Turn>, n: nat)
    requires Descending(window)
    requires forall t :: t in window ==> t in candidates
    requires forall t :: t in candidates && t !in window ==> |window| == n > 0 && t.order <= window[n - 1].order
    ensures Ascending(Reverse(window))
    ensures forall t :: t in Reverse(window) ==> t in candidates
    ensures forall t :: t in candidates ==>
      var w := Reverse(window);
      (|w| < n || t.order > w[0].order) ==> t in w
  {
    ReverseOfDescending(window);
    ReverseMembers(window);
    if |window| == n > 0 {
      assert Reverse(window)[0] == window[n - 1];
    }
  }

  /** Read oldest first, the window is chronological, holds only candidates,
      and misses no candidate newer than its oldest turn; when it is not
      full it holds every candidate. */
  lemma LatestWindowChronological(candidates: seq<Turn>, n: nat)
    requires n > 0
    ensures Ascending(Reverse(LatestWindow(candidates, n)))
    ensures forall t :: t in Reverse(LatestWindow(candidates, n)) ==> t in candidates
    ensures forall t :: t in candidates ==>
      var w := Reverse(LatestWindow(candidates, n));
      (|w| < n || t.order > w[0].order) ==> t in w
  {
    LatestWindowSelects(candidates, n);
    ReversedWindow(LatestWindow(candidates, n), candidates, n);
  }

  /** `turns_list.reverse()`. */
  method ReverseInPlace(a: array<Turn>)
    modifies a
    ensures a[..] == Reverse(old(a[..]))
  {
    var n := a.Length;
    var i := 0;
    while i + 1 < n - i
      invariant 0 <= i <= n - i
      invariant forall j :: 0 <= j < i ==> a[j] == old(a[n - 1 - j])
      invariant forall j :: 0 <= j < i ==> a[n - 1 - j] == old(a[j])
      invariant forall j :: i <= j < n - i ==> a[j] == old(a[j])
    {
      a[i], a[n - 1 - i] := a[n - 1 - i], a[i];
      i := i + 1;
    }
    assert forall j :: 0 <= j < n ==> a[j] == old(a[n - 1 - j]);
  }

  /** The loop of `_fetch_previous_turns` that summarizes each turn, in order. */
  method SummarizeTurns(w: seq<Turn>) returns (summaries: seq<TurnSummary>)
    ensures |summaries| == |w|
    ensures forall j :: 0 <= j < |w| ==> summaries[j] == Summarize(w[j])
    ensures summaries == SummariesOf(w)
  {
    summaries := [];
    var i := 0;
    while i < |w|
      invariant 0 <= i <= |w|
      invariant |summaries| == i
      invariant forall j :: 0 <= j < i ==> summaries[j] == Summarize(w[j])
    {
      summaries := summaries + [Summarize(w[i])];
      i := i + 1;
    }
  }

  /** Summaries of a chronological window that holds only earlier turns of
      the scene and misses none newer than its oldest turn. */
  lemma SummariesOfWindow(
    turns: map<string, Turn>, sceneId: string, currentOrder: int,
    candidates: seq<Turn>, w: seq<Turn>, summaries: seq<TurnSummary>)
    requires forall t :: t in candidates ==> t in turns.Values && Precedes(t, sceneId, currentOrder)
    requires forall t :: t in turns.Values && Precedes(t, sceneId, currentOrder) ==> t in candidates
    requires Ascending(w) && |w| <= MaxPreviousTurns
    requires forall t :: t in w ==> t in candidates
    requires forall t :: t in candidates ==> (|w| < MaxPreviousTurns || t.order > w[0].order) ==> t in w
    requires |summaries| == |w|
    requires forall j :: 0 <= j < |w| ==> summaries[j] == Summarize(w[j])
    ensures forall i, j :: 0 <= i < j < |summaries| ==> summaries[i].order <= summaries[j].order
    ensures forall s :: s in summaries ==>
      exists t :: t in turns.Values && Precedes(t, sceneId, currentOrder) && s == Summarize(t)
    ensures forall t :: t in turns.Values && Precedes(t, sceneId, currentOrder) && (|summaries| < MaxPreviousTurns || t.order > summaries[0].order) ==> Summarize(t) in summaries
  {
    forall i, j | 0 <= i < j < |summaries|
      ensures summaries[i].order <= summaries[j].order
    {
      assert summaries[i].order == w[i].order && summaries[j].order == w[j].order;
    }
    forall s | s in summaries
      ensures exists t :: t in turns.Values && Precedes(t, sceneId, currentOrder) && s == Summarize(t)
    {
      var j :| 0 <= j < |summaries| && summaries[j] == s;
      assert w[j] in w;
    }
    forall t | t in turns.Values && Precedes(t, sceneId, currentOrder)
      && (|summaries| < MaxPreviousTurns || t.order > summaries[0].order)
      ensures Summarize(t) in summaries
    {
      assert |summaries| < MaxPreviousTurns || t.order > w[0].order;
      var j :| 0 <= j < |w| && w[j] == t;
      assert summaries[j] == Summarize(t);
    }
  }

  /** What `_fetch_previous_turns` selects, oldest first: stored earlier
      turns of the scene, each once, as many as there are up to five, and
      none left out that is newer than the oldest one kept. */
  predicate LatestEarlier(turns: map<string, Turn>, sceneId: string, currentOrder: int, w: seq<Turn>) {
    var earlier := |EarlierIds(turns, sceneId, currentOrder)|;
    && Store.StoredOnce(turns, w)
    && (forall t :: t in w ==> Precedes(t, sceneId, currentOrder))
    && Ascending(w)
    && |w| == (if earlier <= MaxPreviousTurns then earlier else MaxPreviousTurns)
    && (forall id :: id in turns && Precedes(turns[id], sceneId, currentOrder) && turns[id] !in w ==>
          |w| == MaxPreviousTurns && turns[id].order <= w[0].order)
  }

  function SummariesOf(w: seq<Turn>): seq<TurnSummary> {
    seq(|w|, i requires 0 <= i < |w| => Summarize(w[i]))
  }

  /** The newest-first window of the collected earlier turns, read
      backwards, is the selection `LatestEarlier` describes. */
  lemma WindowIsLatest(turns: map<string, Turn>, sceneId: string, currentOrder: int, candidates: seq<Turn>)
    requires Store.StoredOnce(turns, candidates)
    requires |candidates| == |EarlierIds(turns, sceneId, currentOrder)|
    requires forall t :: t in candidates ==> Precedes(t, sceneId, currentOrder)
    requires forall t :: t in turns.Values && Precedes(t, sceneId, currentOrder) ==> t in candidates
    ensures LatestEarlier(turns, sceneId, currentOrder, Reverse(LatestWindow(candidates, MaxPreviousTurns)))
  {
    var window := LatestWindow(candidates, MaxPreviousTurns);
    var w := Reverse(window);
    LatestWindowChronological(candidates, MaxPreviousTurns);
    ReverseMultiset(window);
    SubDistinct(candidates, w);
    forall id | id in turns && Precedes(turns[id], sceneId, currentOrder) && turns[id] !in w
      ensures |w| == MaxPreviousTurns && turns[id].order <= w[0].order
    {
      assert turns[id] in turns.Values;
    }
  }

  /** The newest-first window copied into a list and reversed there. */
  method Chronological(window: seq<Turn>) returns (w: seq<Turn>)
    ensures w == Reverse(window)
  {
    var a := new Turn[|window|](i requires 0 <= i < |window| => window[i]);
    assert a[..] == window;
    ReverseInPlace(a);
    w := a[..];
  }

  /** What the summaries of the selected window say about the stored
      turns. */
  lemma PreviousTurnsFacts(
    turns: map<string, Turn>, sceneId: string, currentOrder: int,
    candidates: seq<Turn>, summaries: seq<TurnSummary>)
    requires Store.StoredOnce(turns, candidates)
    requires |candidates| == |EarlierIds(turns, sceneId, currentOrder)|
    requires forall t :: t in candidates ==> t in turns.Values && Precedes(t, sceneId, currentOrder)
    requires forall t :: t in turns.Values && Precedes(t, sceneId, currentOrder) ==> t in candidates
    requires summaries == SummariesOf(Reverse(LatestWindow(candidates, MaxPreviousTurns)))
    ensures exists w :: LatestEarlier(turns, sceneId, currentOrder, w) && summaries == SummariesOf(w)
    ensures |summaries| <= MaxPreviousTurns
    ensures forall i, j :: 0 <= i < j < |summaries| ==> summaries[i].order <= summaries[j].order
    ensures forall s :: s in summaries ==>
      exists t :: t in turns.Values && Precedes(t, sceneId, currentOrder) && s == Summarize(t)
    ensures forall t :: t in turns.Values && Precedes(t, sceneId, currentOrder) && (|summaries| < MaxPreviousTurns || t.order > summaries[0].order) ==> Summarize(t) in summaries
  {
    var w := Reverse(LatestWindow(candidates, MaxPreviousTurns));
    LatestWindowChronological(candidates, MaxPreviousTurns);
    SummariesOfWindow(turns, sceneId, currentOrder, candidates, w, summaries);
    WindowIsLatest(turns, sceneId, currentOrder, candidates);
  }

  /** `_fetch_previous_turns`: the newest earlier turns of the scene, at most
      five, in chronological order. */
  method FetchPreviousTurns(turns: map<string, Turn>, sceneId: string, currentOrder: int)
    returns (summaries: seq<TurnSummary>)
    requires Store.TurnsKeyed(turns)
    ensures exists w :: LatestEarlier(turns, sceneId, currentOrder, w) && summaries == SummariesOf(w)
    ensures |summaries| <= MaxPreviousTurns
    ensures forall i, j :: 0 <= i < j < |summaries| ==> summaries[i].order <= summaries[j].order
    ensures forall s :: s in summaries ==>
      exists t :: t in turns.Values && Precedes(t, sceneId, currentOrder) && s == Summarize(t)
    ensures forall t :: t in turns.Values && Precedes(t, sceneId, currentOrder) && (|summaries| < MaxPreviousTurns || t.order > summaries[0].order) ==> Summarize(t) in summaries
  {
    var candidates := CollectEarlier(turns, sceneId, currentOrder);
    var window := LatestWindow(candidates, MaxPreviousTurns);
    var w := Chronological(window);
    summaries := SummarizeTurns(w);
    PreviousTurnsFacts(turns, sceneId, currentOrder, candidates, summaries);
  }

  // ------------------------------------------------------------ assembly

  function RealmContextOf(r: Realm): RealmContext {
    RealmContext(r.id, r.name, if r.setting.JObject? then r.setting else JNull)
  }

  function CampaignContextOf(c: Campaign): CampaignContext {
    CampaignContext(c.id, c.name, if c.setting.JObject? then c.setting else JNull, c.storyArc)
  }

  function ChapterContextOf(c: Chapter): ChapterContext {
    ChapterContext(c.id, c.name, c.summary, c.order)
  }

  function SceneContextOf(s: Scene, turns: map<string, Turn>): SceneContext {
    var count := if s.id == "" then 0 else CompletedTurnCount(turns, s.id);
    SceneContext(s.id, s.name, s.description, s.summary, s.status, s.participants,
                 count, PacingPhaseOf(count))
  }

  /** The ancestors of a scene, each looked up only when the one below it
      was found and names it. */
  function ChapterOfScene(db: Database, scene: Option<Scene>): Option<Chapter> {
    if scene.Some? && scene.value.chapterId != "" && scene.value.chapterId in db.chapters
    then Some(db.chapters[scene.value.chapterId]) else None
  }

  function CampaignOfChapter(db: Database, chapter: Option<Chapter>): Option<Campaign> {
    if chapter.Some? && chapter.value.campaignId != "" && chapter.value.campaignId in db.campaigns
    then Some(db.campaigns[chapter.value.campaignId]) else None
  }

  function RealmOfCampaign(db: Database, campaign: Option<Campaign>): Option<Realm> {
    if campaign.Some? && campaign.value.realmId != "" && campaign.value.realmId in db.realms
    then Some(db.realms[campaign.value.realmId]) else None
  }

  function MapOption<A, B>(o: Option<A>, f: A -> B): Option<B> {
    if o.Some? then Some(f(o.value)) else None
  }

  /** `assemble_context`. */
  method AssembleContext(
    db: Database, turnId: string, callbackUrl: string,
    skillChecks: Option<seq<SkillCheckContext>>, now: Time)
    returns (r: Result<ContextBundle, AssemblyError>)
    requires Store.TurnsKeyed(db.turns)
    requires CharactersShaped(db.entities) && NpcsShaped(db.entities)
    ensures turnId !in db.turns ==> r == Err(TurnNotFound(turnId))
    ensures turnId in db.turns && db.turns[turnId].sceneId == "" ==> r == Err(NoSceneId(turnId))
    ensures r.Ok? <==> turnId in db.turns && db.turns[turnId].sceneId != ""
    ensures r.Ok? ==>
      var turn := db.turns[turnId];
      var scene := if turn.sceneId in db.scenes then Some(db.scenes[turn.sceneId]) else None;
      var chapter := ChapterOfScene(db, scene);
      var campaign := CampaignOfChapter(db, chapter);
      var realm := RealmOfCampaign(db, campaign);
      var b := r.value;
      && b.turnId == turnId && b.callbackUrl == callbackUrl && b.timestamp == now
      && b.actions == turn.actions
      && (b.context.scene.None? <==> turn.sceneId !in db.scenes)
      && (scene.Some? ==> b.context.scene == Some(SceneContextOf(scene.value, db.turns)))
      && (b.context.chapter.None? <==> chapter.None?)
      && (b.context.campaign.None? <==> campaign.None?)
      && (b.context.realm.None? <==> realm.None?)
      && (chapter.Some? ==> b.context.chapter == Some(ChapterContextOf(chapter.value)))
      && (campaign.Some? ==> b.context.campaign == Some(CampaignContextOf(campaign.value)))
      && (realm.Some? ==> b.context.realm == Some(RealmContextOf(realm.value)))
      && b.context.skillChecks == skillChecks.GetOr([])
      && b.context.lore == []
      && |b.context.previousTurns| <= MaxPreviousTurns
      && (forall s :: s in b.context.previousTurns ==> s.order < turn.order)
      && (exists w :: LatestEarlier(db.turns, turn.sceneId, turn.order, w) && b.context.previousTurns == SummariesOf(w))
      && b.context.characters == CharactersOf(CharacterDocs(db.entities, if scene.Some? then scene.value.participants else []))
      && b.context.npcs == NpcsOf(NpcDocs(db.entities, if scene.Some? then scene.value.npcsPresent else []))
      && |b.context.characters| <= MaxCharacters
      && |b.context.npcs| <= MaxNpcs
  {
    if turnId !in db.turns {
      return Err(TurnNotFound(turnId));
    }
    var turn := db.turns[turnId];
    if turn.sceneId == "" {
      return Err(NoSceneId(turnId));
    }
    var scene := if turn.sceneId in db.scenes then Some(db.scenes[turn.sceneId]) else None;
    var chapter := ChapterOfScene(db, scene);
    var campaign := CampaignOfChapter(db, chapter);
    var realm := RealmOfCampaign(db, campaign);

    var previous := FetchPreviousTurns(db.turns, turn.sceneId, turn.order);
    var participants := if scene.Some? then scene.value.participants else [];
    var npcIds := if scene.Some? then scene.value.npcsPresent else [];
    var characters := FetchCharacters(db.entities, participants);
    var npcs := FetchNpcs(db.entities, npcIds);

    var data := ContextData(
      realm := MapOption(realm, RealmContextOf),
      campaign := MapOption(campaign, CampaignContextOf),
      chapter := MapOption(chapter, ChapterContextOf),
      scene := if scene.Some? then Some(SceneContextOf(scene.value, db.turns)) else None,
      previousTurns := previous,
      characters := characters,
      npcs := npcs,
      lore := FetchLore(turn.actions),
      skillChecks := skillChecks.GetOr([]));
    forall s | s in previous
      ensures s.order < turn.order
    {
      var t :| t in db.turns.Values && Precedes(t, turn.sceneId, turn.order) && s == Summarize(t);
    }
    r := Ok(ContextBundle(turnId, callbackUrl, now, data, turn.actions));
  }
}
