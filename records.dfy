/**
 * The stored entities of the game-records database (backend/app/models.py):
 * the narrative hierarchy campaign -> chapter -> scene -> turn, the audit
 * trail, and the Call of Cthulhu character sheet, with the defaults the
 * Pydantic models give to omitted fields.
 *
 * Identifiers are text and timestamps (`datetime.utcnow()`) are supplied by
 * the caller as plain integers.
 */
module Records {
  import opened Wrappers
  import opened Json

  type Time = int

  // --------------------------------------------------------------- enums

  datatype CampaignStatus = Planning | Running | Paused | Completed

  function CampaignStatusValue(s: CampaignStatus): string {
    match s
    case Planning => "planning"
    case Running => "running"
    case Paused => "paused"
    case Completed => "completed"
  }

  /** Validation of a stored campaign status against the enumeration. */
  function ParseCampaignStatus(v: string): (r: Option<CampaignStatus>)
    ensures r.Some? ==> CampaignStatusValue(r.value) == v
  {
    if v == "planning" then Some(Planning)
    else if v == "running" then Some(Running)
    else if v == "paused" then Some(Paused)
    else if v == "completed" then Some(Completed)
    else None
  }

  /** The enumeration has exactly four values and each reads back as itself. */
  lemma CampaignStatusExactlyFour(v: string)
    ensures ParseCampaignStatus(v).Some? <==> v in ["planning", "running", "paused", "completed"]
    ensures forall s :: ParseCampaignStatus(CampaignStatusValue(s)) == Some(s)
  {
  }

  /** Turn status (`"draft"`, `"ready_for_agents"`, `"processing"`,
      `"completed"`, `"failed"`). */
  datatype TurnStatus = Draft | ReadyForAgents | Processing | TurnCompleted | Failed

  /** Scene and chapter status (`"active"`, `"completed"`). */
  datatype UnitStatus = Active | Closed

  // ------------------------------------------------------- audit records

  /** One audit entry `{by, at, type}` (`by` is the author). */
  datatype Change = Change(author: string, at: Time, kind: Option<string>)

  datatype Meta = Meta(createdBy: Option<string>, createdAt: Option<Time>)

  // ------------------------------------------------- narrative hierarchy

  /** One character's contribution to a turn (its `meta` flags are not kept). */
  datatype Action = Action(
    actorId: string,
    controllerOwner: string,
    speak: Option<string>,
    act: Option<string>,
    appearance: Option<string>,
    emotion: Option<string>,
    ooc: Option<string>)

  /** The Keeper's narrative response attached to a turn. */
  datatype Reaction = Reaction(description: string, summary: Option<string>)

  datatype Turn = Turn(
    id: string,
    sceneId: string,
    order: int,
    actions: seq<Action>,
    reaction: Option<Reaction>,
    status: TurnStatus,
    meta: Meta,
    changes: seq<Change>)

  /** A Turn built with only its required fields given. */
  function DefaultTurn(id: string, sceneId: string, order: int, meta: Meta): (t: Turn)
    ensures t.status == Draft && t.reaction == None
    ensures t.actions == [] && t.changes == []
    ensures t.id == id && t.sceneId == sceneId && t.order == order
  {
    Turn(id, sceneId, order, [], None, Draft, meta, [])
  }

  /** A scene document. `participants` and `npcs_present` are read from
      stored scenes but are not fields of the Scene model, so a Scene built
      by the services stores neither (both read back as empty). */
  datatype Scene = Scene(
    id: string,
    chapterId: string,
    name: string,
    description: Option<string>,
    summary: Option<string>,
    turns: seq<string>,
    status: UnitStatus,
    meta: Meta,
    changes: seq<Change>,
    participants: seq<string>,
    npcsPresent: seq<string>)

  function DefaultScene(id: string, chapterId: string, name: string, meta: Meta): (s: Scene)
    ensures s.status == Active && s.turns == [] && s.changes == []
    ensures s.summary == None && s.description == None
    ensures s.participants == [] && s.npcsPresent == []
  {
    Scene(id, chapterId, name, None, None, [], Active, meta, [], [], [])
  }

  datatype Chapter = Chapter(
    id: string,
    campaignId: string,
    name: string,
    description: Option<string>,
    summary: Option<string>,
    scenes: seq<string>,
    status: UnitStatus,
    meta: Option<Meta>,
    changes: seq<Change>,
    order: Option<int>)

  function DefaultChapter(id: string, campaignId: string, name: string): (c: Chapter)
    ensures c.status == Active && c.scenes == [] && c.changes == []
    ensures c.order == None && c.meta == None && c.summary == None
  {
    Chapter(id, campaignId, name, None, None, [], Active, None, [], None)
  }

  datatype StoryArc = StoryArc(tagline: Option<string>, chapters: seq<string>, milestones: Option<seq<string>>)

  function DefaultStoryArc(): (a: StoryArc)
    ensures a.chapters == [] && a.milestones == None && a.tagline == None
  {
    StoryArc(None, [], None)
  }

  /** A campaign; `setting` is a free-form object (JNull when absent). */
  datatype Campaign = Campaign(
    id: string,
    realmId: string,
    name: string,
    description: Option<string>,
    status: CampaignStatus,
    storyArc: Option<StoryArc>,
    setting: Json,
    meta: Meta,
    changes: seq<Change>)

  function DefaultCampaign(id: string, realmId: string, name: string, meta: Meta): (c: Campaign)
    ensures c.status == Planning && c.storyArc == None && c.changes == []
    ensures c.setting == JNull
  {
    Campaign(id, realmId, name, None, Planning, None, JNull, meta, [])
  }

  datatype Realm = Realm(id: string, worldId: string, name: string, setting: Json)

  datatype Controller = Controller(owner: string, mode: string, agent: Option<string>)

  // ----------------------------------------------------- character sheet

  datatype InvestigatorInfo = InvestigatorInfo(
    name: string, birthplace: string, pronoun: string,
    occupation: string, residence: string, age: string)

  datatype CharacteristicValue = CharacteristicValue(reg: string)

  datatype Characteristics = Characteristics(
    STR: CharacteristicValue, CON: CharacteristicValue, DEX: CharacteristicValue,
    APP: CharacteristicValue, INT: CharacteristicValue, POW: CharacteristicValue,
    SIZ: CharacteristicValue, EDU: CharacteristicValue)

  datatype PointPool = PointPool(max: string, current: string)

  datatype SanityPool = SanityPool(max: string, current: string, insane: string)

  datatype LuckPool = LuckPool(starting: string, current: string)

  datatype CharacterStatus = CharacterStatus(
    temporaryInsanity: bool,
    indefiniteInsanity: bool,
    majorWound: bool,
    unconscious: bool,
    dying: bool)

  datatype Skill = Skill(base: string, reg: string, used: bool)

  datatype Weapon = Weapon(
    name: string, skill: string, damage: string, numAttacks: string,
    range: string, ammo: string, malf: string)

  datatype Combat = Combat(weapons: seq<Weapon>, move: int, build: string, damageBonus: string)

  datatype Backstory = Backstory(
    personalDescription: string,
    ideologyBeliefs: string,
    significantPeople: string,
    meaningfulLocations: string,
    treasuredPossessions: string,
    traits: string,
    injuriesScars: string,
    phobiasManias: string,
    arcaneTomesSpells: string,
    encountersStrangeEntities: string)

  datatype Story = Story(myStory: string, backstory: Backstory)

  datatype Wealth = Wealth(spendingLevel: string, cash: string, assets: string)

  /** `object` names the relationship's target. */
  datatype Relationship = Relationship(target: string, relation: string)

  /** Skills keep the order in which the sheet lists them. */
  datatype CharacterSheet = CharacterSheet(
    investigator: InvestigatorInfo,
    characteristics: Characteristics,
    hitPoints: PointPool,
    magicPoints: PointPool,
    luck: LuckPool,
    sanity: SanityPool,
    status: CharacterStatus,
    skills: seq<(string, Skill)>,
    combat: Combat,
    story: Story,
    gearPossessions: string,
    wealth: Wealth,
    relationships: seq<Relationship>)

  function DefaultCharacterStatus(): (s: CharacterStatus)
    ensures !s.temporaryInsanity && !s.indefiniteInsanity && !s.majorWound
    ensures !s.unconscious && !s.dying
  {
    CharacterStatus(false, false, false, false, false)
  }

  function DefaultSkill(): (s: Skill)
    ensures s.base == "" && s.reg == "" && !s.used
  {
    Skill("", "", false)
  }

  function DefaultPointPool(): (p: PointPool)
    ensures p.max == "" && p.current == ""
  {
    PointPool("", "")
  }

  /** The unarmed attack every new sheet starts with. */
  const BrawlWeapon: Weapon := Weapon("Brawl", "Fighting (Brawl)", "1D3 + DB", "1", "-", "-", "-")

  function DefaultCombat(): (c: Combat)
    ensures c.move == 8 && |c.weapons| == 1
    ensures c.weapons[0].name == "Brawl" && c.weapons[0].skill == "Fighting (Brawl)"
    ensures c.build == "" && c.damageBonus == ""
  {
    Combat([BrawlWeapon], 8, "", "")
  }

  const EmptyBackstory: Backstory := Backstory("", "", "", "", "", "", "", "", "", "")

  function DefaultCharacterSheet(): (sheet: CharacterSheet)
    ensures sheet.status == DefaultCharacterStatus()
    ensures sheet.skills == []
    ensures sheet.combat == DefaultCombat()
    ensures sheet.hitPoints == DefaultPointPool() && sheet.magicPoints == DefaultPointPool()
    ensures sheet.story.backstory == EmptyBackstory
  {
    var blank := CharacteristicValue("");
    CharacterSheet(
      InvestigatorInfo("", "", "", "", "", ""),
      Characteristics(blank, blank, blank, blank, blank, blank, blank, blank),
      DefaultPointPool(), DefaultPointPool(), LuckPool("", ""), SanityPool("", "", ""),
      DefaultCharacterStatus(), [], DefaultCombat(), Story("", EmptyBackstory), "",
      Wealth("", "", ""), [])
  }

  // ------------------------------------------- the sheet as a document

  /** The stored form of a sheet (`CharacterSheet.dict()`), restricted to the
      parts context assembly reads: skills, pools, status and backstory. */
  function SheetDocument(sheet: CharacterSheet): Json {
    JObject(["hit_points", "magic_points", "sanity", "status", "skills", "story"], map[
      "hit_points" := PoolDocument(sheet.hitPoints),
      "magic_points" := PoolDocument(sheet.magicPoints),
      "sanity" := JObject(["max", "current", "insane"], map[
        "max" := JStr(sheet.sanity.max),
        "current" := JStr(sheet.sanity.current),
        "insane" := JStr(sheet.sanity.insane)]),
      "status" := StatusDocument(sheet.status),
      "skills" := ObjectOf(SkillDocuments(sheet.skills)),
      "story" := JObject(["my_story", "backstory"], map[
        "my_story" := JStr(sheet.story.myStory),
        "backstory" := BackstoryDocument(sheet.story.backstory)])])
  }

  function PoolDocument(p: PointPool): Json {
    JObject(["max", "current"], map["max" := JStr(p.max), "current" := JStr(p.current)])
  }

  function StatusDocument(s: CharacterStatus): Json {
    JObject(["temporary_insanity", "indefinite_insanity", "major_wound", "unconscious", "dying"], map[
      "temporary_insanity" := JBool(s.temporaryInsanity),
      "indefinite_insanity" := JBool(s.indefiniteInsanity),
      "major_wound" := JBool(s.majorWound),
      "unconscious" := JBool(s.unconscious),
      "dying" := JBool(s.dying)])
  }

  function SkillDocuments(skills: seq<(string, Skill)>): (r: seq<(string, Json)>)
    ensures |r| == |skills|
    ensures forall i :: 0 <= i < |skills| ==> r[i] == (skills[i].0, SkillDocument(skills[i].1))
  {
    seq(|skills|, i requires 0 <= i < |skills| => (skills[i].0, SkillDocument(skills[i].1)))
  }

  function SkillDocument(s: Skill): Json {
    JObject(["base", "reg", "used"], map["base" := JStr(s.base), "reg" := JStr(s.reg), "used" := JBool(s.used)])
  }

  function BackstoryDocument(b: Backstory): Json {
    JObject(
      ["personal_description", "ideology_beliefs", "significant_people", "meaningful_locations",
       "treasured_possessions", "traits", "injuries_scars", "phobias_manias",
       "arcane_tomes_spells", "encounters_strange_entities"],
      map[
        "personal_description" := JStr(b.personalDescription),
        "ideology_beliefs" := JStr(b.ideologyBeliefs),
        "significant_people" := JStr(b.significantPeople),
        "meaningful_locations" := JStr(b.meaningfulLocations),
        "treasured_possessions" := JStr(b.treasuredPossessions),
        "traits" := JStr(b.traits),
        "injuries_scars" := JStr(b.injuriesScars),
        "phobias_manias" := JStr(b.phobiasManias),
        "arcane_tomes_spells" := JStr(b.arcaneTomesSpells),
        "encounters_strange_entities" := JStr(b.encountersStrangeEntities)])
  }

  /** The whole game-records database as maps keyed by id; characters and
      NPCs share the `entities` collection, kept in its natural order. */
  datatype Database = Database(
    turns: map<string, Turn>,
    scenes: map<string, Scene>,
    chapters: map<string, Chapter>,
    campaigns: map<string, Campaign>,
    realms: map<string, Realm>,
    entities: seq<Json>)
}
