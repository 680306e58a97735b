/**
 * The scene and chapter transition service
 * (backend/app/services/transition.py). The Keeper's structured reply may
 * ask to end the current scene, or the current chapter. The service then
 * closes the current records with a short derived summary, creates their
 * successors, and appends the new ids to the parent lists.
 *
 * Each step is a method that updates the store in place. What a step does
 * is stated by an outcome function over the whole database (the answer and
 * the new database), and the lemmas are about those functions. The
 * generated ids and the clock are parameters.
 */
module Transition {
  import opened Wrappers
  import opened Strings
  import opened Json
  import opened Records
  import opened Store

  // ------------------------------------------------------------- parsing

  datatype TransitionKind = NoTransition | SceneTransition | ChapterTransition

  function KindName(k: TransitionKind): string {
    match k
    case NoTransition => "none"
    case SceneTransition => "scene"
    case ChapterTransition => "chapter"
  }

  /** `TransitionInfo`: what the Keeper asked for. */
  datatype TransitionInfo = TransitionInfo(kind: TransitionKind, reason: Option<string>, suggestedName: Option<string>)

  /** The `type` value, with anything but "scene" or "chapter" read as
      "none". */
  function KindOf(v: Json): TransitionKind {
    if v == JStr("scene") then SceneTransition
    else if v == JStr("chapter") then ChapterTransition
    else NoTransition
  }

  function TextOf(v: Json): Option<string> {
    if v.JStr? then Some(v.s) else None
  }

  const EmptyObject: Json := JObject([], map[])

  /** `parse_transition_from_llm`: never fails; anything malformed reads
      as no transition. */
  function ParseTransition(response: Json): TransitionInfo
    requires response.JObject?
  {
    var data := Get(response, "transition", EmptyObject);
    if !data.JObject? then TransitionInfo(NoTransition, None, None)
    else
      TransitionInfo(KindOf(Get(data, "type", JStr("none"))),
                     TextOf(Get(data, "reason", JNull)),
                     TextOf(Get(data, "suggested_name", JNull)))
  }

  /** The reply is read as no transition exactly when its `transition` is
      not an object or its `type` is neither "scene" nor "chapter"; a
      malformed `transition` carries no text. */
  lemma ParseNoneIff(response: Json)
    requires response.JObject?
    ensures var data := Get(response, "transition", EmptyObject);
      ParseTransition(response).kind == NoTransition
      <==> !data.JObject? || (Get(data, "type", JStr("none")) != JStr("scene") && Get(data, "type", JStr("none")) != JStr("chapter"))
    ensures !Get(response, "transition", EmptyObject).JObject? ==>
      ParseTransition(response) == TransitionInfo(NoTransition, None, None)
  {
  }

  /** The reply the Keeper is asked to write for a transition. */
  function TransitionReply(info: TransitionInfo): (v: Json)
    ensures v.JObject?
  {
    var fields := map["type" := JStr(KindName(info.kind))];
    var fields := if info.reason.Some? then fields["reason" := JStr(info.reason.value)] else fields;
    var fields := if info.suggestedName.Some? then fields["suggested_name" := JStr(info.suggestedName.value)] else fields;
    JObject(["transition"], map["transition" := JObject(["type", "reason", "suggested_name"], fields)])
  }

  /** Parsing gives back every transition written in the expected form. */
  lemma ParseRoundTrip(info: TransitionInfo)
    ensures ParseTransition(TransitionReply(info)) == info
  {
    var data := Get(TransitionReply(info), "transition", EmptyObject);
    assert data.JObject?;
    assert Get(data, "type", JStr("none")) == JStr(KindName(info.kind));
    assert KindOf(JStr(KindName(info.kind))) == info.kind;
  }

  // ----------------------------------------------------------- summaries

  /** `"<name> completed. <count> <noun>. <reason>"`. */
  function CompletedSummary(name: string, count: nat, noun: string, reason: string): string {
    name + " completed. " + NatToString(count) + " " + noun + ". " + reason
  }

  /** The count in a summary is written in decimal and reads back as the
      count. */
  lemma SummaryCountReadsBack(name: string, count: nat, noun: string, reason: string)
    ensures exists digits :: (AllDigits(digits) && DigitsValue(digits) == count
      && CompletedSummary(name, count, noun, reason) == name + " completed. " + digits + " " + noun + ". " + reason)
  {
    NatToStringValue(count);
    var digits := NatToString(count);
    assert AllDigits(digits) && DigitsValue(digits) == count;
  }

  // ------------------------------------------------------------- closing

  /** The author of the "completed" entries. */
  const Keeper := "DungeonMasterAI"

  function ClosedScene(s: Scene, reason: string, at: Time): Scene {
    s.(status := Closed,
       summary := Some(CompletedSummary(s.name, |s.turns|, "turns", reason)),
       changes := s.changes + [Change(Keeper, at, Some("completed"))])
  }

  /** `_close_scene`: a missing scene is left alone. */
  function CloseSceneIn(scenes: map<string, Scene>, id: string, reason: string, at: Time): (r: map<string, Scene>)
    ensures SameScenes(scenes, r) && SameTurnLists(scenes, r)
  {
    if id in scenes then scenes[id := ClosedScene(scenes[id], reason, at)] else scenes
  }

  function ClosedChapter(c: Chapter, reason: string, at: Time): Chapter {
    c.(status := Closed,
       summary := Some(CompletedSummary(c.name, |c.scenes|, "scenes", reason)),
       changes := c.changes + [Change(Keeper, at, Some("completed"))])
  }

  /** `_close_chapter`: a missing chapter is left alone. */
  function CloseChapterIn(chapters: map<string, Chapter>, id: string, reason: string, at: Time): (r: map<string, Chapter>)
    ensures SameChapters(chapters, r)
  {
    if id in chapters then chapters[id := ClosedChapter(chapters[id], reason, at)] else chapters
  }

  /** Closing a scene or a chapter keeps the database consistent. */
  lemma ClosingConsistent(db: Database, sceneId: string, chapterId: string, reason: string, at: Time)
    requires Consistent(db)
    ensures Consistent(db.(scenes := CloseSceneIn(db.scenes, sceneId, reason, at)))
    ensures Consistent(db.(chapters := CloseChapterIn(db.chapters, chapterId, reason, at)))
  {
    var scenes := CloseSceneIn(db.scenes, sceneId, reason, at);
    SameScenesKeep(db.scenes, scenes, db.chapters);
    SameTurnListsKeep(db.turns, db.scenes, scenes);
    SameChaptersKeep(db.scenes, db.chapters, CloseChapterIn(db.chapters, chapterId, reason, at));
  }

  /** `_close_scene`. */
  method CloseScene(store: GameStore, sceneId: string, reason: string, at: Time)
    requires store.Valid()
    modifies store
    ensures store.State() == old(store.State()).(scenes := CloseSceneIn(old(store.scenes), sceneId, reason, at))
    ensures store.Valid()
  {
    ClosingConsistent(store.State(), sceneId, "", reason, at);
    if sceneId !in store.scenes {
      return;
    }
    var scene := store.scenes[sceneId];
    var turnCount := |scene.turns|;
    var summary := CompletedSummary(scene.name, turnCount, "turns", reason);
    store.scenes := store.scenes[sceneId := scene.(status := Closed, summary := Some(summary),
      changes := scene.changes + [Change(Keeper, at, Some("completed"))])];
  }

  /** `_close_chapter`. */
  method CloseChapter(store: GameStore, chapterId: string, reason: string, at: Time)
    requires store.Valid()
    modifies store
    ensures store.State() == old(store.State()).(chapters := CloseChapterIn(old(store.chapters), chapterId, reason, at))
    ensures store.Valid()
  {
    ClosingConsistent(store.State(), "", chapterId, reason, at);
    if chapterId !in store.chapters {
      return;
    }
    var chapter := store.chapters[chapterId];
    var sceneCount := |chapter.scenes|;
    var summary := CompletedSummary(chapter.name, sceneCount, "scenes", reason);
    store.chapters := store.chapters[chapterId := chapter.(status := Closed, summary := Some(summary),
      changes := chapter.changes + [Change(Keeper, at, Some("completed"))])];
  }

  // ------------------------------------------------------------ outcomes

  /** `TransitionResult`. */
  datatype TransitionResult = TransitionResult(
    occurred: bool,
    kind: Option<TransitionKind>,
    newSceneId: Option<string>,
    newChapterId: Option<string>,
    sceneName: Option<string>,
    chapterName: Option<string>)

  const NothingHappened: TransitionResult := TransitionResult(false, None, None, None, None, None)

  /** The `ValueError`s the service raises, and the failure on a campaign
      whose `story_arc` is stored as null. */
  datatype TransitionError = SceneNotFound(sceneId: string) | CampaignNotFound(campaignId: string) | StoryArcNull(campaignId: string)

  /** The scene a scene transition creates: no turns, no participants. */
  function TransitionScene(id: string, chapterId: string, name: string, reason: Option<string>, createdBy: string, at: Time): Scene {
    Scene(id, chapterId, name,
          Some("Transition from previous scene. Reason: " + TextOr(reason, "Not specified")),
          Some("Scene in progress"), [], Active, Meta(Some(createdBy), Some(at)),
          [Change(createdBy, at, Some("created"))], [], [])
  }

  /** The first scene of a new chapter. */
  function OpeningScene(id: string, chapterId: string, chapterName: string, createdBy: string, at: Time): Scene {
    Scene(id, chapterId, "Opening Scene", Some("Opening scene of " + chapterName),
          Some("Scene in progress"), [], Active, Meta(Some(createdBy), Some(at)),
          [Change(createdBy, at, Some("created"))], [], [])
  }

  function NewChapter(id: string, campaignId: string, name: string, reason: Option<string>, sceneId: string,
                      order: int, createdBy: string, at: Time): Chapter
  {
    Chapter(id, campaignId, name, Some("New chapter. Reason: " + TextOr(reason, "Not specified")),
            Some("Chapter in progress"), [sceneId], Active, Some(Meta(Some(createdBy), Some(at))),
            [Change(createdBy, at, Some("created"))], Some(order))
  }

  /** `$push` of a scene id onto a chapter's `scenes`; no chapter, no
      write. */
  function AddSceneTo(chapters: map<string, Chapter>, chapterId: string, sceneId: string): (r: map<string, Chapter>)
    ensures r.Keys == chapters.Keys
    ensures forall id :: id in r ==> r[id].id == chapters[id].id
  {
    if chapterId in chapters then chapters[chapterId := chapters[chapterId].(scenes := chapters[chapterId].scenes + [sceneId])]
    else chapters
  }

  /** `$push` of a chapter id onto a campaign's `story_arc.chapters`. */
  function AddChapterTo(campaigns: map<string, Campaign>, campaignId: string, chapterId: string): (r: map<string, Campaign>)
    requires campaignId in campaigns && campaigns[campaignId].storyArc.Some?
  {
    var c := campaigns[campaignId];
    campaigns[campaignId := c.(storyArc := Some(c.storyArc.value.(chapters := c.storyArc.value.chapters + [chapterId])))]
  }

  /** Insert a scene and list it in its chapter. */
  function SceneAdded(db: Database, s: Scene): Database {
    db.(scenes := db.scenes[s.id := s], chapters := AddSceneTo(db.chapters, s.chapterId, s.id))
  }

  /** Insert a chapter and its opening scene, and list the chapter in its
      campaign's story arc. */
  function ChapterAdded(db: Database, c: Chapter, s: Scene): Database
    requires c.campaignId in db.campaigns && db.campaigns[c.campaignId].storyArc.Some?
  {
    db.(chapters := db.chapters[c.id := c], scenes := db.scenes[s.id := s],
        campaigns := AddChapterTo(db.campaigns, c.campaignId, c.id))
  }

  /** `_create_new_scene`. */
  function NewSceneOutcome(db: Database, currentChapterId: string, currentSceneId: string, suggestedName: Option<string>,
                           reason: Option<string>, createdBy: string, newSceneId: string, at: Time)
    : (Result<TransitionResult, TransitionError>, Database)
  {
    if currentSceneId !in db.scenes then (Err(SceneNotFound(currentSceneId)), db)
    else
      var name := TextOr(suggestedName, "Untitled Scene");
      var closed := db.(scenes := CloseSceneIn(db.scenes, currentSceneId, TextOr(reason, "Scene transition"), at));
      (Ok(TransitionResult(true, Some(SceneTransition), Some(newSceneId), None, Some(name), None)),
       SceneAdded(closed, TransitionScene(newSceneId, currentChapterId, name, reason, createdBy, at)))
  }

  /** The database once a chapter transition has closed the current scene
      and the chapter that scene names. */
  function ClosedForChapter(db: Database, currentSceneId: string, why: string, at: Time): (r: Database)
    requires currentSceneId in db.scenes
    ensures r.campaigns == db.campaigns
  {
    var chapterId := db.scenes[currentSceneId].chapterId;
    db.(scenes := CloseSceneIn(db.scenes, currentSceneId, why, at),
        chapters := if |chapterId| > 0 then CloseChapterIn(db.chapters, chapterId, why, at) else db.chapters)
  }

  /** `_create_new_chapter`. */
  function NewChapterOutcome(db: Database, campaignId: string, currentSceneId: string, suggestedName: Option<string>,
                             reason: Option<string>, createdBy: string, newChapterId: string, newSceneId: string, at: Time)
    : (Result<TransitionResult, TransitionError>, Database)
  {
    if currentSceneId !in db.scenes then (Err(SceneNotFound(currentSceneId)), db)
    else
      var closed := ClosedForChapter(db, currentSceneId, TextOr(reason, "Chapter transition"), at);
      if campaignId !in db.campaigns then (Err(CampaignNotFound(campaignId)), closed)
      else if db.campaigns[campaignId].storyArc.None? then (Err(StoryArcNull(campaignId)), closed)
      else
        var order := |db.campaigns[campaignId].storyArc.value.chapters| + 1;
        var name := TextOr(suggestedName, "Untitled Chapter");
        (Ok(TransitionResult(true, Some(ChapterTransition), Some(newSceneId), Some(newChapterId), Some("Opening Scene"), Some(name))),
         ChapterAdded(closed, NewChapter(newChapterId, campaignId, name, reason, newSceneId, order, createdBy, at),
                      OpeningScene(newSceneId, newChapterId, name, createdBy, at)))
  }

  /** `process_transition`. */
  function ProcessOutcome(db: Database, info: TransitionInfo, currentSceneId: string, currentChapterId: string,
                          campaignId: string, createdBy: string, newChapterId: string, newSceneId: string, at: Time)
    : (Result<TransitionResult, TransitionError>, Database)
  {
    match info.kind
    case NoTransition => (Ok(NothingHappened), db)
    case SceneTransition =>
      NewSceneOutcome(db, currentChapterId, currentSceneId, info.suggestedName, info.reason, createdBy, newSceneId, at)
    case ChapterTransition =>
      NewChapterOutcome(db, campaignId, currentSceneId, info.suggestedName, info.reason, createdBy, newChapterId, newSceneId, at)
  }

  // -------------------------------------------------------------- lemmas

  /** No transition writes nothing; a transition whose current scene is
      missing fails before any write. */
  lemma ProcessGuards(db: Database, info: TransitionInfo, currentSceneId: string, currentChapterId: string,
                      campaignId: string, createdBy: string, newChapterId: string, newSceneId: string, at: Time)
    ensures info.kind == NoTransition ==>
      ProcessOutcome(db, info, currentSceneId, currentChapterId, campaignId, createdBy, newChapterId, newSceneId, at)
        == (Ok(NothingHappened), db)
    ensures info.kind != NoTransition && currentSceneId !in db.scenes ==>
      ProcessOutcome(db, info, currentSceneId, currentChapterId, campaignId, createdBy, newChapterId, newSceneId, at)
        == (Err(SceneNotFound(currentSceneId)), db)
  {
  }

  /** A scene transition closes the current scene and opens an active,
      empty scene listed in the given chapter. The source's attempt to
      carry the participants over writes to a temporary copy of the new
      scene, so the new scene has none. */
  lemma NewSceneShape(db: Database, currentChapterId: string, currentSceneId: string, suggestedName: Option<string>,
                      reason: Option<string>, createdBy: string, newSceneId: string, at: Time)
    requires currentSceneId in db.scenes && newSceneId !in db.scenes
    ensures var (r, after) := NewSceneOutcome(db, currentChapterId, currentSceneId, suggestedName, reason, createdBy, newSceneId, at);
      && r.Ok? && r.value.newSceneId == Some(newSceneId)
      && after.scenes[currentSceneId].status == Closed
      && after.scenes[newSceneId].status == Active
      && after.scenes[newSceneId].turns == [] && after.scenes[newSceneId].participants == []
      && after.scenes[newSceneId].chapterId == currentChapterId
      && (currentChapterId in db.chapters ==>
            after.chapters[currentChapterId].scenes == db.chapters[currentChapterId].scenes + [newSceneId])
      && after.turns == db.turns && after.campaigns == db.campaigns
  {
  }

  /** When the campaign is missing, the chapter transition fails only after
      the current scene, and the chapter it names, are already closed. */
  lemma CampaignMissingAfterClose(db: Database, campaignId: string, currentSceneId: string, suggestedName: Option<string>,
                                  reason: Option<string>, createdBy: string, newChapterId: string, newSceneId: string, at: Time)
    requires currentSceneId in db.scenes && campaignId !in db.campaigns
    ensures var (r, after) := NewChapterOutcome(db, campaignId, currentSceneId, suggestedName, reason, createdBy, newChapterId, newSceneId, at);
      var chapterId := db.scenes[currentSceneId].chapterId;
      && r == Err(CampaignNotFound(campaignId))
      && after.scenes[currentSceneId].status == Closed
      && (|chapterId| > 0 && chapterId in db.chapters ==> after.chapters[chapterId].status == Closed)
      && after.scenes.Keys == db.scenes.Keys && after.chapters.Keys == db.chapters.Keys
      && after.campaigns == db.campaigns
  {
  }

  /** A successful chapter transition numbers the new chapter after those
      of the story arc, gives it the new opening scene, and appends its id,
      and only its id, to the campaign's story arc. */
  lemma NewChapterShape(db: Database, campaignId: string, currentSceneId: string, suggestedName: Option<string>,
                        reason: Option<string>, createdBy: string, newChapterId: string, newSceneId: string, at: Time)
    requires currentSceneId in db.scenes && campaignId in db.campaigns && db.campaigns[campaignId].storyArc.Some?
    ensures var (r, after) := NewChapterOutcome(db, campaignId, currentSceneId, suggestedName, reason, createdBy, newChapterId, newSceneId, at);
      var arc := db.campaigns[campaignId].storyArc.value;
      && r.Ok? && r.value.newChapterId == Some(newChapterId) && r.value.newSceneId == Some(newSceneId)
      && after.chapters[newChapterId].order == Some(|arc.chapters| + 1)
      && after.chapters[newChapterId].scenes == [newSceneId]
      && after.scenes[newSceneId].chapterId == newChapterId
      && after.scenes[newSceneId].name == "Opening Scene"
      && after.campaigns[campaignId].storyArc == Some(arc.(chapters := arc.chapters + [newChapterId]))
      && after.campaigns.Keys == db.campaigns.Keys
      && (forall id :: id in db.campaigns && id != campaignId ==> after.campaigns[id] == db.campaigns[id])
  {
  }

  /** A new scene's chapter lists it, and every other listing stays. */
  lemma AddSceneListed(scenes: map<string, Scene>, chapters: map<string, Chapter>, s: Scene)
    requires ScenesListed(scenes, chapters) && s.id !in scenes
    ensures ScenesListed(scenes[s.id := s], AddSceneTo(chapters, s.chapterId, s.id))
  {
    var after := scenes[s.id := s];
    var listed := AddSceneTo(chapters, s.chapterId, s.id);
    forall cid, sid | cid in listed && sid in listed[cid].scenes
      ensures sid in after && after[sid].chapterId == cid
    {
      if sid != s.id || cid != s.chapterId {
        assert sid in chapters[cid].scenes;
      }
    }
  }

  /** Storing a fresh scene with no turns and listing it in its chapter
      keeps the database consistent. */
  lemma AddedSceneConsistent(db: Database, s: Scene)
    requires Consistent(db) && s.id !in db.scenes && s.turns == []
    ensures Consistent(SceneAdded(db, s))
  {
    AddSceneListed(db.scenes, db.chapters, s);
  }

  /** A scene transition with a fresh scene id keeps the database
      consistent. */
  lemma NewSceneConsistent(db: Database, currentChapterId: string, currentSceneId: string, suggestedName: Option<string>,
                           reason: Option<string>, createdBy: string, newSceneId: string, at: Time)
    requires Consistent(db) && newSceneId !in db.scenes
    ensures Consistent(NewSceneOutcome(db, currentChapterId, currentSceneId, suggestedName, reason, createdBy, newSceneId, at).1)
  {
    if currentSceneId in db.scenes {
      var why := TextOr(reason, "Scene transition");
      ClosingConsistent(db, currentSceneId, "", why, at);
      var closed := db.(scenes := CloseSceneIn(db.scenes, currentSceneId, why, at));
      var name := TextOr(suggestedName, "Untitled Scene");
      AddedSceneConsistent(closed, TransitionScene(newSceneId, currentChapterId, name, reason, createdBy, at));
    }
  }

  lemma ClosedForChapterConsistent(db: Database, currentSceneId: string, why: string, at: Time)
    requires Consistent(db) && currentSceneId in db.scenes
    ensures Consistent(ClosedForChapter(db, currentSceneId, why, at))
    ensures ClosedForChapter(db, currentSceneId, why, at).scenes.Keys == db.scenes.Keys
    ensures ClosedForChapter(db, currentSceneId, why, at).chapters.Keys == db.chapters.Keys
  {
    var chapterId := db.scenes[currentSceneId].chapterId;
    ClosingConsistent(db, currentSceneId, chapterId, why, at);
    var half := db.(scenes := CloseSceneIn(db.scenes, currentSceneId, why, at));
    ClosingConsistent(half, currentSceneId, chapterId, why, at);
  }

  /** A new chapter listing only its own new scene keeps every listing. */
  lemma AddChapterListed(scenes: map<string, Scene>, chapters: map<string, Chapter>, c: Chapter, s: Scene)
    requires ScenesListed(scenes, chapters) && c.id !in chapters && s.id !in scenes
    requires c.scenes == [s.id] && s.chapterId == c.id
    ensures ScenesListed(scenes[s.id := s], chapters[c.id := c])
  {
    var after := scenes[s.id := s];
    var listed := chapters[c.id := c];
    forall cid, sid | cid in listed && sid in listed[cid].scenes
      ensures sid in after && after[sid].chapterId == cid
    {
      if cid != c.id {
        assert sid in chapters[cid].scenes;
      }
    }
  }

  /** Storing a fresh chapter that lists only a fresh, empty scene of its
      own keeps the database consistent. */
  lemma AddedChapterConsistent(db: Database, c: Chapter, s: Scene)
    requires Consistent(db) && c.id !in db.chapters && s.id !in db.scenes
    requires c.scenes == [s.id] && s.chapterId == c.id && s.turns == []
    requires c.campaignId in db.campaigns && db.campaigns[c.campaignId].storyArc.Some?
    ensures Consistent(ChapterAdded(db, c, s))
  {
    AddChapterListed(db.scenes, db.chapters, c, s);
  }

  /** A chapter transition with fresh ids keeps the database consistent. */
  lemma NewChapterConsistent(db: Database, campaignId: string, currentSceneId: string, suggestedName: Option<string>,
                             reason: Option<string>, createdBy: string, newChapterId: string, newSceneId: string, at: Time)
    requires Consistent(db) && newSceneId !in db.scenes && newChapterId !in db.chapters
    ensures Consistent(NewChapterOutcome(db, campaignId, currentSceneId, suggestedName, reason, createdBy, newChapterId, newSceneId, at).1)
  {
    if currentSceneId in db.scenes {
      var why := TextOr(reason, "Chapter transition");
      ClosedForChapterConsistent(db, currentSceneId, why, at);
      var closed := ClosedForChapter(db, currentSceneId, why, at);
      if campaignId in db.campaigns && db.campaigns[campaignId].storyArc.Some? {
        var name := TextOr(suggestedName, "Untitled Chapter");
        var order := |db.campaigns[campaignId].storyArc.value.chapters| + 1;
        AddedChapterConsistent(closed, NewChapter(newChapterId, campaignId, name, reason, newSceneId, order, createdBy, at),
                               OpeningScene(newSceneId, newChapterId, name, createdBy, at));
      }
    }
  }

  // ------------------------------------------------------------- methods

  /** Insert a fresh scene and `$push` its id onto its chapter. */
  method AddScene(store: GameStore, s: Scene)
    requires store.Valid() && s.id !in store.scenes && s.turns == []
    modifies store
    ensures store.State() == SceneAdded(old(store.State()), s)
    ensures store.Valid()
  {
    AddedSceneConsistent(store.State(), s);
    store.scenes := store.scenes[s.id := s];
    if s.chapterId in store.chapters {
      var chapter := store.chapters[s.chapterId];
      store.chapters := store.chapters[s.chapterId := chapter.(scenes := chapter.scenes + [s.id])];
    }
  }

  /** Insert a fresh chapter and its opening scene and `$push` the
      chapter's id onto its campaign's story arc. */
  method AddChapter(store: GameStore, c: Chapter, s: Scene)
    requires store.Valid() && c.id !in store.chapters && s.id !in store.scenes
    requires c.scenes == [s.id] && s.chapterId == c.id && s.turns == []
    requires c.campaignId in store.campaigns && store.campaigns[c.campaignId].storyArc.Some?
    modifies store
    ensures store.State() == ChapterAdded(old(store.State()), c, s)
    ensures store.Valid()
  {
    AddedChapterConsistent(store.State(), c, s);
    store.chapters := store.chapters[c.id := c];
    store.scenes := store.scenes[s.id := s];
    var campaign := store.campaigns[c.campaignId];
    var arc := campaign.storyArc.value;
    store.campaigns := store.campaigns[c.campaignId := campaign.(storyArc := Some(arc.(chapters := arc.chapters + [c.id])))];
  }

  /** `_create_new_scene`. */
  method CreateNewScene(store: GameStore, currentChapterId: string, currentSceneId: string, turnId: string,
                        suggestedName: Option<string>, reason: Option<string>, createdBy: string,
                        newSceneId: string, at: Time)
    returns (r: Result<TransitionResult, TransitionError>)
    requires store.Valid() && newSceneId !in store.scenes
    modifies store
    ensures (r, store.State())
      == NewSceneOutcome(old(store.State()), currentChapterId, currentSceneId, suggestedName, reason, createdBy, newSceneId, at)
    ensures store.Valid()
  {
    if currentSceneId !in store.scenes {
      return Err(SceneNotFound(currentSceneId));
    }
    var why := TextOr(reason, "Scene transition");
    CloseScene(store, currentSceneId, why, at);
    assert store.scenes.Keys == old(store.scenes.Keys);
    var sceneName := TextOr(suggestedName, "Untitled Scene");
    AddScene(store, TransitionScene(newSceneId, currentChapterId, sceneName, reason, createdBy, at));
    r := Ok(TransitionResult(true, Some(SceneTransition), Some(newSceneId), None, Some(sceneName), None));
  }

  /** Close the current scene, and the chapter it names. */
  method CloseForChapter(store: GameStore, currentSceneId: string, why: string, at: Time)
    requires store.Valid() && currentSceneId in store.scenes
    modifies store
    ensures store.State() == ClosedForChapter(old(store.State()), currentSceneId, why, at)
    ensures store.Valid()
  {
    var currentChapterId := store.scenes[currentSceneId].chapterId;
    CloseScene(store, currentSceneId, why, at);
    if |currentChapterId| > 0 {
      CloseChapter(store, currentChapterId, why, at);
    }
  }

  /** `_create_new_chapter`. */
  method CreateNewChapter(store: GameStore, campaignId: string, currentSceneId: string, turnId: string,
                          suggestedName: Option<string>, reason: Option<string>, createdBy: string,
                          newChapterId: string, newSceneId: string, at: Time)
    returns (r: Result<TransitionResult, TransitionError>)
    requires store.Valid() && newSceneId !in store.scenes && newChapterId !in store.chapters
    modifies store
    ensures (r, store.State())
      == NewChapterOutcome(old(store.State()), campaignId, currentSceneId, suggestedName, reason, createdBy, newChapterId, newSceneId, at)
    ensures store.Valid()
  {
    if currentSceneId !in store.scenes {
      return Err(SceneNotFound(currentSceneId));
    }
    var why := TextOr(reason, "Chapter transition");
    ClosedForChapterConsistent(store.State(), currentSceneId, why, at);
    CloseForChapter(store, currentSceneId, why, at);
    assert store.scenes.Keys == old(store.scenes.Keys) && store.chapters.Keys == old(store.chapters.Keys);
    if campaignId !in store.campaigns {
      return Err(CampaignNotFound(campaignId));
    }
    var campaign := store.campaigns[campaignId];
    if campaign.storyArc.None? {
      return Err(StoryArcNull(campaignId));
    }
    var chapterOrder := |campaign.storyArc.value.chapters| + 1;
    var chapterName := TextOr(suggestedName, "Untitled Chapter");
    AddChapter(store, NewChapter(newChapterId, campaignId, chapterName, reason, newSceneId, chapterOrder, createdBy, at),
               OpeningScene(newSceneId, newChapterId, chapterName, createdBy, at));
    r := Ok(TransitionResult(true, Some(ChapterTransition), Some(newSceneId), Some(newChapterId), Some("Opening Scene"), Some(chapterName)));
  }

  /** `process_transition`; `createdBy` defaults to "DungeonMasterAI" in
      the service. */
  method ProcessTransition(store: GameStore, info: TransitionInfo, turnId: string, currentSceneId: string,
                           currentChapterId: string, campaignId: string, createdBy: string,
                           newChapterId: string, newSceneId: string, at: Time)
    returns (r: Result<TransitionResult, TransitionError>)
    requires store.Valid() && newSceneId !in store.scenes && newChapterId !in store.chapters
    modifies store
    ensures (r, store.State())
      == ProcessOutcome(old(store.State()), info, currentSceneId, currentChapterId, campaignId, createdBy, newChapterId, newSceneId, at)
    ensures store.Valid()
  {
    if info.kind == NoTransition {
      return Ok(NothingHappened);
    }
    if info.kind == SceneTransition {
      r := CreateNewScene(store, currentChapterId, currentSceneId, turnId, info.suggestedName, info.reason, createdBy, newSceneId, at);
      return;
    }
    r := CreateNewChapter(store, campaignId, currentSceneId, turnId, info.suggestedName, info.reason, createdBy,
                          newChapterId, newSceneId, at);
  }
}
