/**
 * The turn routes (backend/app/routes_turns.py): a small life cycle over the
 * turn collection and the back-reference list `scene.turns`. A turn is
 * created as a draft, may be edited or deleted only while it is a draft, is
 * submitted for the Keeper, and is completed when the Keeper's reaction is
 * attached.
 *
 * Each handler is a method that updates the store in place; what it does
 * is stated by an outcome function over the whole database (the answer and
 * the new database), and the lemmas below are about those functions.
 * Generated ids and `datetime.utcnow()` are parameters.
 */
module TurnRoutes {
  import opened Wrappers
  import opened Records
  import opened TurnOrder
  import opened Store

  /** An `HTTPException` raised by a handler. */
  datatype HttpError = HttpError(status: int, detail: string)

  const TurnNotFound: HttpError := HttpError(404, "Turn not found")

  /** The request body of create and update (`TurnCreate`). */
  datatype TurnCreate = TurnCreate(sceneId: string, order: int, actions: seq<Action>, createdBy: string)

  /** One audit entry `{by, at, type}`. */
  function Audit(author: string, at: Time, kind: string): Change {
    Change(author, at, Some(kind))
  }

  // ---------------------------------------------------------------- list

  /** The query of `list_turns`: no filter when the scene id is absent or
      empty. */
  predicate InQuery(t: Turn, sceneId: Option<string>) {
    sceneId.None? || |sceneId.value| == 0 || t.sceneId == sceneId.value
  }

  /** `.to_list(length=1000)`. */
  const ListLimit: nat := 1000

  function FirstN(s: seq<Turn>, n: nat): (r: seq<Turn>)
    ensures |r| == if |s| <= n then |s| else n
    ensures multiset(r) <= multiset(s)
  {
    if |s| <= n then s
    else
      assert s == s[..n] + s[n..];
      s[..n]
  }

  /** The first n of an ascending arrangement of the candidates hold only
      candidates, and a candidate left out is no older than every turn
      kept. */
  lemma FirstOfAscending(sorted: seq<Turn>, candidates: seq<Turn>, n: nat)
    requires n > 0 && Ascending(sorted) && multiset(sorted) == multiset(candidates)
    ensures forall t :: t in FirstN(sorted, n) ==> t in candidates
    ensures forall t :: t in candidates && t !in FirstN(sorted, n) ==>
      |FirstN(sorted, n)| == n && FirstN(sorted, n)[n - 1].order <= t.order
  {
    var w := FirstN(sorted, n);
    forall t | t in w ensures t in candidates {
      assert t in sorted;
      assert t in multiset(sorted);
    }
    forall t | t in candidates && t !in w
      ensures |w| == n && w[n - 1].order <= t.order
    {
      assert t in multiset(candidates);
      assert t in sorted;
      var k :| 0 <= k < |sorted| && sorted[k] == t;
      assert forall j :: 0 <= j < |w| ==> w[j] == sorted[j];
    }
  }

  /** The ids of the stored turns the query of `list_turns` matches. */
  function QueryIds(turns: map<string, Turn>, sceneId: Option<string>): set<string> {
    set id | id in turns && InQuery(turns[id], sceneId)
  }

  /** The query `find(query)` of `list_turns`: every stored turn it
      matches, each once, in no particular order. */
  method CollectQuery(turns: map<string, Turn>, sceneId: Option<string>) returns (candidates: seq<Turn>)
    requires TurnsKeyed(turns)
    ensures StoredOnce(turns, candidates)
    ensures |candidates| == |QueryIds(turns, sceneId)|
    ensures forall t :: t in candidates ==> t in turns.Values && InQuery(t, sceneId)
    ensures forall t :: t in turns.Values && InQuery(t, sceneId) ==> t in candidates
  {
    var keep := (t: Turn) => InQuery(t, sceneId);
    candidates := FindTurns(turns, keep);
    assert MatchingIds(turns, keep) == QueryIds(turns, sceneId);
    forall t | t in turns.Values && InQuery(t, sceneId)
      ensures t in candidates
    {
      var id :| id in turns && turns[id] == t;
      assert id in MatchingIds(turns, keep);
    }
  }

  /** The first 1000 of the sorted matches are matches, in ascending
      order, and any match left out is no older than the last one kept. */
  lemma ListedOrder(turns: map<string, Turn>, sceneId: Option<string>, candidates: seq<Turn>, r: seq<Turn>)
    requires forall t :: t in candidates ==> t in turns.Values && InQuery(t, sceneId)
    requires forall t :: t in turns.Values && InQuery(t, sceneId) ==> t in candidates
    requires r == FirstN(Sort(candidates), ListLimit)
    ensures Ascending(r)
    ensures forall t :: t in r ==> t in turns.Values && InQuery(t, sceneId)
    ensures forall t :: t in turns.Values && InQuery(t, sceneId) && t !in r ==>
      |r| == ListLimit && r[ListLimit - 1].order <= t.order
  {
    var sorted := Sort(candidates);
    FirstOfAscending(sorted, candidates, ListLimit);
    assert Ascending(r) by {
      forall i, j | 0 <= i < j < |r|
        ensures r[i].order <= r[j].order
      {
        assert r[i] == sorted[i] && r[j] == sorted[j];
      }
    }
  }

  /** The first 1000 of the sorted matches hold each stored turn once, and
      as many as there are matches up to the cap. */
  lemma ListedOnce(turns: map<string, Turn>, sceneId: Option<string>, candidates: seq<Turn>, r: seq<Turn>)
    requires StoredOnce(turns, candidates)
    requires |candidates| == |QueryIds(turns, sceneId)|
    requires r == FirstN(Sort(candidates), ListLimit)
    ensures StoredOnce(turns, r)
    ensures |r| == if |QueryIds(turns, sceneId)| <= ListLimit then |QueryIds(turns, sceneId)| else ListLimit
  {
    SubDistinct(candidates, r);
    forall t | t in r
      ensures t.id in turns && turns[t.id] == t
    {
      assert t in multiset(candidates);
    }
  }

  /** `list_turns`: the turns of the query sorted by `order`, each once, at
      most 1000; when the cap bites, those left out are no older than the
      last one returned. */
  method ListTurns(store: GameStore, sceneId: Option<string>) returns (r: seq<Turn>)
    requires TurnsKeyed(store.turns)
    ensures Ascending(r)
    ensures StoredOnce(store.turns, r)
    ensures forall t :: t in r ==> t in store.turns.Values && InQuery(t, sceneId)
    ensures |r| == if |QueryIds(store.turns, sceneId)| <= ListLimit then |QueryIds(store.turns, sceneId)| else ListLimit
    ensures forall t :: t in store.turns.Values && InQuery(t, sceneId) && t !in r ==>
      |r| == ListLimit && r[ListLimit - 1].order <= t.order
  {
    var turns := store.turns;
    var candidates := CollectQuery(turns, sceneId);
    r := FirstN(Sort(candidates), ListLimit);
    ListedOrder(turns, sceneId, candidates, r);
    ListedOnce(turns, sceneId, candidates, r);
  }

  // ----------------------------------------------------------------- get

  /** `get_turn`: the stored turn with that id, or 404. */
  method GetTurn(store: GameStore, turnId: string) returns (r: Result<Turn, HttpError>)
    requires store.Valid()
    ensures r.Ok? <==> turnId in store.turns
    ensures r.Ok? ==> r.value in store.turns.Values && r.value.id == turnId
    ensures r.Err? ==> r.error == TurnNotFound
  {
    if turnId !in store.turns {
      return Err(HttpError(404, "Turn not found"));
    }
    r := Ok(store.turns[turnId]);
  }

  // -------------------------------------------------------------- create

  /** The turn `create_turn` stores: a draft with no reaction and one
      "created" entry. */
  function NewTurn(id: string, data: TurnCreate, at: Time): Turn {
    Turn(id, data.sceneId, data.order, data.actions, None, Draft,
         Meta(Some(data.createdBy), Some(at)), [Audit(data.createdBy, at, "created")])
  }

  /** `$push` of a turn id onto a scene's `turns`; no scene, no write. */
  function PushTurnId(scenes: map<string, Scene>, sceneId: string, turnId: string): (r: map<string, Scene>)
    ensures SameScenes(scenes, r)
  {
    if sceneId in scenes then scenes[sceneId := scenes[sceneId].(turns := scenes[sceneId].turns + [turnId])]
    else scenes
  }

  function Created(db: Database, id: string, data: TurnCreate, at: Time): Database {
    db.(turns := db.turns[id := NewTurn(id, data, at)], scenes := PushTurnId(db.scenes, data.sceneId, id))
  }

  /** Storing a turn under a fresh id and listing it in its scene keeps
      every listed id pointing at a turn of that scene. */
  lemma PushKeepsListed(turns: map<string, Turn>, scenes: map<string, Scene>, t: Turn)
    requires TurnsListed(turns, scenes) && t.id !in turns
    ensures TurnsListed(turns[t.id := t], PushTurnId(scenes, t.sceneId, t.id))
  {
    var after := PushTurnId(scenes, t.sceneId, t.id);
    forall sid, tid | sid in after && tid in after[sid].turns
      ensures tid in turns[t.id := t] && turns[t.id := t][tid].sceneId == sid
    {
      if tid != t.id || sid != t.sceneId {
        assert tid in scenes[sid].turns;
      }
    }
  }

  /** Creating a turn with a fresh id keeps the database consistent. */
  lemma CreatedConsistent(db: Database, id: string, data: TurnCreate, at: Time)
    requires Consistent(db) && id !in db.turns
    ensures Consistent(Created(db, id, data, at))
  {
    var after := Created(db, id, data, at);
    SameScenesKeep(db.scenes, after.scenes, db.chapters);
    PushKeepsListed(db.turns, db.scenes, NewTurn(id, data, at));
  }

  /** `create_turn`. */
  method CreateTurn(store: GameStore, data: TurnCreate, turnId: string, at: Time) returns (turn: Turn)
    requires store.Valid() && turnId !in store.turns
    modifies store
    ensures turn == NewTurn(turnId, data, at)
    ensures store.State() == Created(old(store.State()), turnId, data, at)
    ensures store.Valid()
  {
    turn := Turn(turnId, data.sceneId, data.order, data.actions, None, Draft,
                 Meta(Some(data.createdBy), Some(at)), [Change(data.createdBy, at, Some("created"))]);
    store.turns := store.turns[turnId := turn];
    if data.sceneId in store.scenes {
      var scene := store.scenes[data.sceneId];
      store.scenes := store.scenes[data.sceneId := scene.(turns := scene.turns + [turnId])];
    }
    CreatedConsistent(old(store.State()), turnId, data, at);
  }

  /** Replacing a stored turn by one with the same id and scene keeps the
      database consistent. */
  lemma ReplacedConsistent(db: Database, t: Turn)
    requires Consistent(db) && t.id in db.turns && db.turns[t.id].sceneId == t.sceneId
    ensures Consistent(db.(turns := db.turns[t.id := t]))
  {
    var after := db.(turns := db.turns[t.id := t]);
    forall sid, tid | sid in after.scenes && tid in after.scenes[sid].turns
      ensures tid in after.turns && after.turns[tid].sceneId == sid
    {
      assert tid in db.turns && db.turns[tid].sceneId == sid;
    }
  }

  // -------------------------------------------------------------- submit

  function Submitted(t: Turn, author: string, at: Time): Turn {
    t.(status := ReadyForAgents, changes := t.changes + [Audit(author, at, "submitted")])
  }

  /** `submit_turn`: 404 only when no turn has the id. */
  function SubmitOutcome(db: Database, id: string, author: string, at: Time): (Result<string, HttpError>, Database) {
    if id !in db.turns then (Err(TurnNotFound), db)
    else (Ok("Turn submitted for processing"), db.(turns := db.turns[id := Submitted(db.turns[id], author, at)]))
  }

  /** Submission does not look at the status it replaces. */
  lemma SubmitIgnoresStatus(t: Turn, s: TurnStatus, author: string, at: Time)
    ensures Submitted(t.(status := s), author, at) == Submitted(t, author, at)
    ensures Submitted(t, author, at).status == ReadyForAgents
  {
  }

  /** Submission keeps the database consistent, and a missing turn writes
      nothing. */
  lemma SubmitConsistent(db: Database, id: string, author: string, at: Time)
    requires Consistent(db)
    ensures Consistent(SubmitOutcome(db, id, author, at).1)
    ensures SubmitOutcome(db, id, author, at).0.Err? <==> id !in db.turns
    ensures id !in db.turns ==> SubmitOutcome(db, id, author, at).1 == db
  {
    if id in db.turns {
      ReplacedConsistent(db, Submitted(db.turns[id], author, at));
    }
  }

  /** `submit_turn`; the update's modified count decides the 404. */
  method SubmitTurn(store: GameStore, turnId: string, submittedBy: string, at: Time)
    returns (r: Result<string, HttpError>)
    requires store.Valid()
    modifies store
    ensures (r, store.State()) == SubmitOutcome(old(store.State()), turnId, submittedBy, at)
    ensures store.Valid()
  {
    var modified := 0;
    if turnId in store.turns {
      var turn := store.turns[turnId];
      store.turns := store.turns[turnId := turn.(status := ReadyForAgents,
        changes := turn.changes + [Change(submittedBy, at, Some("submitted"))])];
      modified := 1;
    }
    SubmitConsistent(old(store.State()), turnId, submittedBy, at);
    if modified == 0 {
      return Err(HttpError(404, "Turn not found"));
    }
    r := Ok("Turn submitted for processing");
  }

  // ------------------------------------------------------------ reaction

  function WithReaction(t: Turn, reaction: Reaction, at: Time): Turn {
    t.(reaction := Some(reaction), status := TurnCompleted,
       changes := t.changes + [Audit("KeeperAI", at, "reaction_added")])
  }

  /** `add_reaction`: 404 only when no turn has the id. */
  function ReactionOutcome(db: Database, id: string, description: string, summary: Option<string>, at: Time)
    : (Result<string, HttpError>, Database)
  {
    if id !in db.turns then (Err(TurnNotFound), db)
    else
      var t := WithReaction(db.turns[id], Reaction(description, summary), at);
      (Ok("Reaction added successfully"), db.(turns := db.turns[id := t]))
  }

  /** A second reaction replaces the first and appends a second audit
      entry: the entries accumulate. */
  lemma {:induction false} ReactionTwice(t: Turn, r1: Reaction, r2: Reaction, at1: Time, at2: Time)
    ensures WithReaction(WithReaction(t, r1, at1), r2, at2)
      == t.(reaction := Some(r2), status := TurnCompleted,
            changes := t.changes + [Audit("KeeperAI", at1, "reaction_added"), Audit("KeeperAI", at2, "reaction_added")])
  {
    var c1, c2 := Audit("KeeperAI", at1, "reaction_added"), Audit("KeeperAI", at2, "reaction_added");
    assert t.changes + [c1] + [c2] == t.changes + [c1, c2];
  }

  /** Adding a reaction keeps the database consistent, and a missing turn
      writes nothing. */
  lemma ReactionConsistent(db: Database, id: string, description: string, summary: Option<string>, at: Time)
    requires Consistent(db)
    ensures Consistent(ReactionOutcome(db, id, description, summary, at).1)
    ensures ReactionOutcome(db, id, description, summary, at).0.Err? <==> id !in db.turns
    ensures id !in db.turns ==> ReactionOutcome(db, id, description, summary, at).1 == db
  {
    if id in db.turns {
      ReplacedConsistent(db, WithReaction(db.turns[id], Reaction(description, summary), at));
    }
  }

  /** `add_reaction`. */
  method AddReaction(store: GameStore, turnId: string, description: string, summary: Option<string>, at: Time)
    returns (r: Result<string, HttpError>)
    requires store.Valid()
    modifies store
    ensures (r, store.State()) == ReactionOutcome(old(store.State()), turnId, description, summary, at)
    ensures store.Valid()
  {
    var reaction := Reaction(description, summary);
    var modified := 0;
    if turnId in store.turns {
      var turn := store.turns[turnId];
      store.turns := store.turns[turnId := turn.(reaction := Some(reaction), status := TurnCompleted,
        changes := turn.changes + [Change("KeeperAI", at, Some("reaction_added"))])];
      modified := 1;
    }
    ReactionConsistent(old(store.State()), turnId, description, summary, at);
    if modified == 0 {
      return Err(HttpError(404, "Turn not found"));
    }
    r := Ok("Reaction added successfully");
  }

  // -------------------------------------------------------------- update

  /** Only the actions are replaced; the scene, order and status of the
      request are ignored. */
  function Updated(t: Turn, data: TurnCreate, at: Time): Turn {
    t.(actions := data.actions, changes := t.changes + [Audit(data.createdBy, at, "updated")])
  }

  /** `update_turn`: 404 for a missing turn, 400 for one that is not a
      draft. */
  function UpdateOutcome(db: Database, id: string, data: TurnCreate, at: Time): (Result<Turn, HttpError>, Database) {
    if id !in db.turns then (Err(TurnNotFound), db)
    else if db.turns[id].status != Draft then (Err(HttpError(400, "Can only update draft turns")), db)
    else
      var t := Updated(db.turns[id], data, at);
      (Ok(t), db.(turns := db.turns[id := t]))
  }

  /** An update fails exactly on a missing or non-draft turn and then writes
      nothing; otherwise it keeps every field of the turn but the actions
      and the one new audit entry. */
  lemma UpdateGuarded(db: Database, id: string, data: TurnCreate, at: Time)
    requires Consistent(db)
    ensures Consistent(UpdateOutcome(db, id, data, at).1)
    ensures UpdateOutcome(db, id, data, at).0.Err? <==> id !in db.turns || db.turns[id].status != Draft
    ensures UpdateOutcome(db, id, data, at).0.Err? ==> UpdateOutcome(db, id, data, at).1 == db
    ensures UpdateOutcome(db, id, data, at).0.Ok? ==>
      var t := UpdateOutcome(db, id, data, at).0.value;
      && t.(actions := db.turns[id].actions, changes := db.turns[id].changes) == db.turns[id]
      && t.actions == data.actions
      && |t.changes| == |db.turns[id].changes| + 1
  {
    if id in db.turns && db.turns[id].status == Draft {
      ReplacedConsistent(db, Updated(db.turns[id], data, at));
    }
  }

  /** `update_turn`, which edits the fetched document and writes it back. */
  method UpdateTurn(store: GameStore, turnId: string, data: TurnCreate, at: Time)
    returns (r: Result<Turn, HttpError>)
    requires store.Valid()
    modifies store
    ensures (r, store.State()) == UpdateOutcome(old(store.State()), turnId, data, at)
    ensures store.Valid()
  {
    if turnId !in store.turns {
      return Err(HttpError(404, "Turn not found"));
    }
    var existing := store.turns[turnId];
    if existing.status != Draft {
      return Err(HttpError(400, "Can only update draft turns"));
    }
    existing := existing.(actions := data.actions);
    existing := existing.(changes := existing.changes + [Change(data.createdBy, at, Some("updated"))]);
    store.turns := store.turns[turnId := existing];
    UpdateGuarded(old(store.State()), turnId, data, at);
    r := Ok(existing);
  }

  // -------------------------------------------------------------- delete

  /** `$pull`: every occurrence of `x` removed, the rest kept in order. */
  function Without(ids: seq<string>, x: string): (r: seq<string>)
    ensures x !in r
    ensures forall y :: y in r <==> y in ids && y != x
  {
    if |ids| == 0 then []
    else
      var last := ids[|ids| - 1];
      Without(ids[..|ids| - 1], x) + (if last == x then [] else [last])
  }

  /** Pulling an id that is absent changes nothing. */
  lemma {:induction false} WithoutAbsent(ids: seq<string>, x: string)
    requires x !in ids
    ensures Without(ids, x) == ids
  {
    if |ids| > 0 {
      WithoutAbsent(ids[..|ids| - 1], x);
    }
  }

  function PullTurnId(scenes: map<string, Scene>, sceneId: string, turnId: string): (r: map<string, Scene>)
    ensures SameScenes(scenes, r)
  {
    if sceneId in scenes then scenes[sceneId := scenes[sceneId].(turns := Without(scenes[sceneId].turns, turnId))]
    else scenes
  }

  /** `delete_turn`: 404 for a missing turn, 400 for one that is not a
      draft; otherwise the id leaves its scene's list and the turn is
      removed. */
  function DeleteOutcome(db: Database, id: string): (Result<string, HttpError>, Database) {
    if id !in db.turns then (Err(TurnNotFound), db)
    else if db.turns[id].status != Draft then (Err(HttpError(400, "Can only delete draft turns")), db)
    else
      (Ok("Turn deleted successfully"),
       db.(scenes := PullTurnId(db.scenes, db.turns[id].sceneId, id), turns := db.turns - {id}))
  }

  /** Removing a turn and pulling its id from its scene keeps every listed
      id pointing at a turn of that scene. */
  lemma PullKeepsListed(turns: map<string, Turn>, scenes: map<string, Scene>, id: string)
    requires TurnsListed(turns, scenes) && id in turns
    ensures TurnsListed(turns - {id}, PullTurnId(scenes, turns[id].sceneId, id))
  {
    var after := PullTurnId(scenes, turns[id].sceneId, id);
    forall sid, tid | sid in after && tid in after[sid].turns
      ensures tid in turns - {id} && turns[tid].sceneId == sid
    {
      assert tid in scenes[sid].turns;
    }
  }

  /** Deleting keeps the database consistent: no scene lists the deleted
      turn afterwards. */
  lemma DeleteConsistent(db: Database, id: string)
    requires Consistent(db)
    ensures Consistent(DeleteOutcome(db, id).1)
    ensures DeleteOutcome(db, id).0.Err? <==> id !in db.turns || db.turns[id].status != Draft
    ensures DeleteOutcome(db, id).0.Err? ==> DeleteOutcome(db, id).1 == db
  {
    if id in db.turns && db.turns[id].status == Draft {
      var after := DeleteOutcome(db, id).1;
      SameScenesKeep(db.scenes, after.scenes, db.chapters);
      PullKeepsListed(db.turns, db.scenes, id);
    }
  }

  /** Pulling an id just pushed onto a list that did not hold it gives the
      list back. */
  lemma PushThenPull(scenes: map<string, Scene>, sceneId: string, id: string)
    requires sceneId in scenes ==> id !in scenes[sceneId].turns
    ensures PullTurnId(PushTurnId(scenes, sceneId, id), sceneId, id) == scenes
  {
    if sceneId in scenes {
      var ids := scenes[sceneId].turns;
      WithoutAbsent(ids, id);
      assert (ids + [id])[..|ids|] == ids;
      assert Without(ids + [id], id) == ids;
    }
  }

  /** Deleting a turn just created gives back the database it was created
      in. */
  lemma CreateThenDelete(db: Database, id: string, data: TurnCreate, at: Time)
    requires Consistent(db) && id !in db.turns
    ensures DeleteOutcome(Created(db, id, data, at), id) == (Ok("Turn deleted successfully"), db)
  {
    if data.sceneId in db.scenes {
      assert id !in db.scenes[data.sceneId].turns;
    }
    PushThenPull(db.scenes, data.sceneId, id);
    assert db.turns[id := NewTurn(id, data, at)] - {id} == db.turns;
  }

  /** `delete_turn`. */
  method DeleteTurn(store: GameStore, turnId: string) returns (r: Result<string, HttpError>)
    requires store.Valid()
    modifies store
    ensures (r, store.State()) == DeleteOutcome(old(store.State()), turnId)
    ensures store.Valid()
  {
    if turnId !in store.turns {
      return Err(HttpError(404, "Turn not found"));
    }
    var turn := store.turns[turnId];
    if turn.status != Draft {
      return Err(HttpError(400, "Can only delete draft turns"));
    }
    if turn.sceneId in store.scenes {
      var scene := store.scenes[turn.sceneId];
      store.scenes := store.scenes[turn.sceneId := scene.(turns := Without(scene.turns, turnId))];
    }
    store.turns := store.turns - {turnId};
    DeleteConsistent(old(store.State()), turnId);
    r := Ok("Turn deleted successfully");
  }
}
