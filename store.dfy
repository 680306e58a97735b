/**
 * The game-records database as the route handlers and the transition
 * service update it: one mutable store whose collections are maps keyed by
 * id, and the consistency its writers keep between the collections and the
 * back-reference lists `scene.turns` and `chapter.scenes`.
 */
module Store {
  import opened Records
  import opened TurnOrder
  import Json

  predicate TurnsKeyed(turns: map<string, Turn>) {
    forall id :: id in turns ==> turns[id].id == id
  }

  predicate ScenesKeyed(scenes: map<string, Scene>) {
    forall id :: id in scenes ==> scenes[id].id == id
  }

  predicate ChaptersKeyed(chapters: map<string, Chapter>) {
    forall id :: id in chapters ==> chapters[id].id == id
  }

  predicate CampaignsKeyed(campaigns: map<string, Campaign>) {
    forall id :: id in campaigns ==> campaigns[id].id == id
  }

  /** Every id in a scene's `turns` list names a stored turn of that scene. */
  predicate TurnsListed(turns: map<string, Turn>, scenes: map<string, Scene>) {
    forall sid, tid :: sid in scenes && tid in scenes[sid].turns ==> tid in turns && turns[tid].sceneId == sid
  }

  /** Every id in a chapter's `scenes` list names a stored scene of that
      chapter. */
  predicate ScenesListed(scenes: map<string, Scene>, chapters: map<string, Chapter>) {
    forall cid, sid :: cid in chapters && sid in chapters[cid].scenes ==> sid in scenes && scenes[sid].chapterId == cid
  }

  /** Two scene maps with the same ids, each scene keeping its id and its
      chapter. */
  predicate SameScenes(a: map<string, Scene>, b: map<string, Scene>) {
    a.Keys == b.Keys && forall id :: id in a ==> b[id].id == a[id].id && b[id].chapterId == a[id].chapterId
  }

  /** Rewriting scenes without touching their ids or chapters keeps them
      keyed and listed by their chapters. */
  lemma SameScenesKeep(a: map<string, Scene>, b: map<string, Scene>, chapters: map<string, Chapter>)
    requires SameScenes(a, b)
    ensures ScenesKeyed(a) ==> ScenesKeyed(b)
    ensures ScenesListed(a, chapters) ==> ScenesListed(b, chapters)
  {
  }

  /** Two scene maps with the same ids whose scenes list the same turns. */
  predicate SameTurnLists(a: map<string, Scene>, b: map<string, Scene>) {
    a.Keys == b.Keys && forall id :: id in a ==> b[id].turns == a[id].turns
  }

  lemma SameTurnListsKeep(turns: map<string, Turn>, a: map<string, Scene>, b: map<string, Scene>)
    requires SameTurnLists(a, b)
    ensures TurnsListed(turns, a) ==> TurnsListed(turns, b)
  {
  }

  /** Two chapter maps with the same ids, each chapter keeping its id and
      its list of scenes. */
  predicate SameChapters(a: map<string, Chapter>, b: map<string, Chapter>) {
    a.Keys == b.Keys && forall id :: id in a ==> b[id].id == a[id].id && b[id].scenes == a[id].scenes
  }

  lemma SameChaptersKeep(scenes: map<string, Scene>, a: map<string, Chapter>, b: map<string, Chapter>)
    requires SameChapters(a, b)
    ensures ChaptersKeyed(a) ==> ChaptersKeyed(b)
    ensures ScenesListed(scenes, a) ==> ScenesListed(scenes, b)
  {
  }

  /** What the turn routes and the transition service keep true. */
  predicate Consistent(db: Database) {
    && TurnsKeyed(db.turns)
    && ScenesKeyed(db.scenes)
    && ChaptersKeyed(db.chapters)
    && CampaignsKeyed(db.campaigns)
    && TurnsListed(db.turns, db.scenes)
    && ScenesListed(db.scenes, db.chapters)
  }

  /** Stored turns, each the document stored under its own id, no id
      twice. */
  predicate StoredOnce(turns: map<string, Turn>, s: seq<Turn>) {
    && (forall t :: t in s ==> t.id in turns && turns[t.id] == t)
    && DistinctIds(s)
  }

  /** The ids of the stored turns a query filter keeps. */
  function MatchingIds(turns: map<string, Turn>, keep: Turn -> bool): set<string> {
    set id | id in turns && keep(turns[id])
  }

  /** `find(filter)` over the turn collection: every stored turn the filter
      keeps, each once, in no particular order. */
  method FindTurns(turns: map<string, Turn>, keep: Turn -> bool) returns (found: seq<Turn>)
    requires TurnsKeyed(turns)
    ensures StoredOnce(turns, found)
    ensures forall t :: t in found ==> keep(t)
    ensures forall id :: id in MatchingIds(turns, keep) ==> turns[id] in found
    ensures |found| == |MatchingIds(turns, keep)|
  {
    found := [];
    ghost var taken: set<string> := {};
    var pending := turns.Keys;
    while pending != {}
      invariant pending <= turns.Keys
      invariant forall id :: id in taken <==> id in turns && id !in pending && keep(turns[id])
      invariant |found| == |taken|
      invariant forall t :: t in found ==> t.id in taken && turns[t.id] == t && keep(t)
      invariant DistinctIds(found)
      invariant forall id :: id in taken ==> turns[id] in found
      decreases |pending|
    {
      var id :| id in pending;
      if keep(turns[id]) {
        var t := turns[id];
        DistinctSnoc(found, t);
        found := found + [t];
        taken := taken + {id};
      }
      pending := pending - {id};
    }
    assert taken == MatchingIds(turns, keep);
  }

  /** The database the handlers share, updated in place. */
  class GameStore {
    var turns: map<string, Turn>
    var scenes: map<string, Scene>
    var chapters: map<string, Chapter>
    var campaigns: map<string, Campaign>
    var realms: map<string, Realm>
    var entities: seq<Json.Json>

    function State(): Database
      reads this
    {
      Database(turns, scenes, chapters, campaigns, realms, entities)
    }

    predicate Valid()
      reads this
    {
      Consistent(State())
    }

    /** An empty database. */
    constructor ()
      ensures Valid()
      ensures State() == Database(map[], map[], map[], map[], map[], [])
    {
      turns, scenes, chapters, campaigns := map[], map[], map[], map[];
      realms, entities := map[], [];
    }
  }
}
