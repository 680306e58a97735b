/**
 * The web client's selection-flow store (`useGameSessionStore`): the
 * player's name, then a world, a realm, a campaign, the characters and a
 * session, picked in that order. Choosing anything again forgets every
 * choice made after it, and the `canProceed…` gates open one after
 * another along the same chain.
 */
module GameSession {
  import opened Wrappers
  import opened Strings

  /** A world, realm, campaign, character or session as the store holds
      it: only the id is read by the store itself. */
  datatype Entity = Entity(id: string, name: string)

  /** Everything the store holds, as one value. */
  datatype Selections = Selections(
    playerName: string,
    world: Option<Entity>,
    realm: Option<Entity>,
    campaign: Option<Entity>,
    characters: seq<Entity>,
    session: Option<Entity>,
    error: Option<string>)

  /** The state of a fresh store, and the one `resetSession` returns to. */
  const Initial: Selections := Selections("", None, None, None, [], None, None)

  // ------------------------------------------------------------- gates

  predicate PlayerNameSet(s: Selections) { |Strip(s.playerName)| > 0 }

  predicate CanProceedToRealm(s: Selections) { PlayerNameSet(s) && s.world.Some? }

  predicate CanProceedToCampaign(s: Selections) { CanProceedToRealm(s) && s.realm.Some? }

  predicate CanProceedToCharacters(s: Selections) { CanProceedToCampaign(s) && s.campaign.Some? }

  predicate CanProceedToSession(s: Selections) { CanProceedToCharacters(s) && |s.characters| > 0 }

  /** The last gate holds exactly when every step of the flow is done. */
  function CanStartGame(s: Selections): (r: bool)
    ensures r <==> && PlayerNameSet(s) && s.world.Some? && s.realm.Some?
                   && s.campaign.Some? && |s.characters| > 0 && s.session.Some?
    ensures r ==> CanProceedToSession(s) && CanProceedToCharacters(s)
                  && CanProceedToCampaign(s) && CanProceedToRealm(s)
  {
    CanProceedToSession(s) && s.session.Some?
  }

  lemma InitialClosed()
    ensures !PlayerNameSet(Initial) && !CanProceedToRealm(Initial) && !CanStartGame(Initial)
    ensures Initial.world.None? && Initial.realm.None? && Initial.campaign.None?
    ensures |Initial.characters| == 0 && Initial.session.None? && Initial.error.None?
  {
    assert Strip("") == "";
  }

  // ----------------------------------------------------------- setters

  /** A trimmed name reads as set exactly when the name held something
      besides whitespace. */
  lemma TrimmedSet(s: Selections, name: string)
    requires s.playerName == Strip(name)
    ensures PlayerNameSet(s) <==> !AllSpace(name)
  {
    var t := Strip(name);
    StripEmptyIff(name);
    if |t| > 0 {
      StripUnchanged(t);
    }
  }

  /** `setPlayerName`: the name is stored trimmed, and counts as set
      exactly when it held something besides whitespace. */
  function WithPlayerName(s: Selections, name: string): (t: Selections)
    ensures t.playerName == Strip(name)
    ensures PlayerNameSet(t) <==> !AllSpace(name)
    ensures t.world == s.world && t.realm == s.realm && t.campaign == s.campaign
    ensures t.characters == s.characters && t.session == s.session && t.error == s.error
  {
    var t := Selections(Strip(name), s.world, s.realm, s.campaign, s.characters, s.session, s.error);
    TrimmedSet(t, name);
    t
  }

  /** `setWorld`: the realm, campaign, characters and session are dropped,
      so no gate past the realm step stays open. */
  function WithWorld(s: Selections, world: Option<Entity>): (t: Selections)
    ensures t.world == world && t.playerName == s.playerName && t.error == s.error
    ensures t.realm.None? && t.campaign.None? && |t.characters| == 0 && t.session.None?
    ensures CanProceedToRealm(t) <==> PlayerNameSet(s) && world.Some?
    ensures !CanProceedToCampaign(t)
  {
    Selections(s.playerName, world, None, None, [], None, s.error)
  }

  /** `setRealm`: the campaign, characters and session are dropped. */
  function WithRealm(s: Selections, realm: Option<Entity>): (t: Selections)
    ensures t.realm == realm && t.playerName == s.playerName && t.world == s.world && t.error == s.error
    ensures t.campaign.None? && |t.characters| == 0 && t.session.None?
    ensures CanProceedToCampaign(t) <==> CanProceedToRealm(s) && realm.Some?
    ensures !CanProceedToCharacters(t)
  {
    Selections(s.playerName, s.world, realm, None, [], None, s.error)
  }

  /** `setCampaign`: the characters and session are dropped. */
  function WithCampaign(s: Selections, campaign: Option<Entity>): (t: Selections)
    ensures t.campaign == campaign && t.playerName == s.playerName && t.error == s.error
    ensures t.world == s.world && t.realm == s.realm
    ensures |t.characters| == 0 && t.session.None?
    ensures CanProceedToCharacters(t) <==> CanProceedToCampaign(s) && campaign.Some?
    ensures !CanProceedToSession(t)
  {
    Selections(s.playerName, s.world, s.realm, campaign, [], None, s.error)
  }

  /** `setCharacters`: the session is dropped. */
  function WithCharacters(s: Selections, characters: seq<Entity>): (t: Selections)
    ensures t.characters == characters && t.playerName == s.playerName && t.error == s.error
    ensures t.world == s.world && t.realm == s.realm && t.campaign == s.campaign
    ensures t.session.None?
    ensures CanProceedToSession(t) <==> CanProceedToCharacters(s) && |characters| > 0
    ensures !CanStartGame(t)
  {
    Selections(s.playerName, s.world, s.realm, s.campaign, characters, None, s.error)
  }

  /** `setSession`: the only setter that leaves every other choice alone. */
  function WithSession(s: Selections, session: Option<Entity>): (t: Selections)
    ensures t.session == session
    ensures t.playerName == s.playerName && t.world == s.world && t.realm == s.realm
    ensures t.campaign == s.campaign && t.characters == s.characters && t.error == s.error
    ensures CanStartGame(t) <==> CanProceedToSession(s) && session.Some?
  {
    s.(session := session)
  }

  // -------------------------------------------------------- characters

  /** `findIndex` by id: the first character with the id, or -1. */
  function IndexOf(characters: seq<Entity>, id: string): (r: int)
    ensures -1 <= r < |characters|
    ensures r >= 0 ==> characters[r].id == id && forall i :: 0 <= i < r ==> characters[i].id != id
    ensures r < 0 ==> forall i :: 0 <= i < |characters| ==> characters[i].id != id
  {
    if |characters| == 0 then -1
    else if characters[0].id == id then 0
    else
      var k := IndexOf(characters[1..], id);
      if k < 0 then -1 else k + 1
  }

  /** `isCharacterSelected`: `some` by id. */
  function IsSelected(characters: seq<Entity>, id: string): (r: bool)
    ensures r <==> exists i :: 0 <= i < |characters| && characters[i].id == id
  {
    if |characters| == 0 then false
    else characters[0].id == id || IsSelected(characters[1..], id)
  }

  /** `toggleCharacter`: the first character with the same id is spliced
      out; when there is none, the character is appended. */
  function Toggled(characters: seq<Entity>, c: Entity): (r: seq<Entity>)
    ensures IsSelected(characters, c.id) ==> |r| == |characters| - 1
    ensures IsSelected(characters, c.id) ==>
      multiset(r) + multiset{characters[IndexOf(characters, c.id)]} == multiset(characters)
    ensures !IsSelected(characters, c.id) ==> r == characters + [c]
  {
    var k := IndexOf(characters, c.id);
    if k >= 0 then
      assert characters == characters[..k] + [characters[k]] + characters[k + 1..];
      characters[..k] + characters[k + 1..]
    else characters + [c]
  }

  /** No two selected characters share an id: what toggling alone keeps. */
  predicate UniqueIds(characters: seq<Entity>) {
    forall i, j :: 0 <= i < j < |characters| ==> characters[i].id != characters[j].id
  }

  /** Every character of the toggled list was already selected, or is the
      toggled one. */
  lemma ToggledFrom(characters: seq<Entity>, c: Entity, i: int)
    requires 0 <= i < |Toggled(characters, c)|
    ensures var r := Toggled(characters, c);
      var k := IndexOf(characters, c.id);
      if k >= 0 then
        (i < k ==> r[i] == characters[i]) && (i >= k ==> r[i] == characters[i + 1])
      else
        (i < |characters| ==> r[i] == characters[i]) && (i == |characters| ==> r[i] == c)
  {
  }

  /** Toggling a selected id drops it (ids being distinct); toggling an
      unselected one adds it. */
  lemma ToggleSelf(characters: seq<Entity>, c: Entity)
    requires UniqueIds(characters)
    ensures IsSelected(Toggled(characters, c), c.id) <==> !IsSelected(characters, c.id)
  {
    var r := Toggled(characters, c);
    var k := IndexOf(characters, c.id);
    if k >= 0 {
      forall i | 0 <= i < |r|
        ensures r[i].id != c.id
      {
        ToggledFrom(characters, c, i);
      }
    } else {
      assert r[|characters|] == c;
    }
  }

  /** Toggling one id leaves whether any other id is selected alone. */
  lemma ToggleOther(characters: seq<Entity>, c: Entity, id: string)
    requires id != c.id
    ensures IsSelected(Toggled(characters, c), id) <==> IsSelected(characters, id)
  {
    if IsSelected(characters, id) {
      ToggleOtherKept(characters, c, id);
    }
    if IsSelected(Toggled(characters, c), id) {
      ToggleOtherFrom(characters, c, id);
    }
  }

  lemma ToggleOtherFrom(characters: seq<Entity>, c: Entity, id: string)
    requires id != c.id && IsSelected(Toggled(characters, c), id)
    ensures IsSelected(characters, id)
  {
    var r := Toggled(characters, c);
    var k := IndexOf(characters, c.id);
    var i :| 0 <= i < |r| && r[i].id == id;
    ToggledFrom(characters, c, i);
    if k >= 0 && i >= k {
      assert characters[i + 1].id == id;
    }
  }

  lemma ToggleOtherKept(characters: seq<Entity>, c: Entity, id: string)
    requires id != c.id && IsSelected(characters, id)
    ensures IsSelected(Toggled(characters, c), id)
  {
    var r := Toggled(characters, c);
    var k := IndexOf(characters, c.id);
    var i :| 0 <= i < |characters| && characters[i].id == id;
    if k >= 0 && i > k {
      ToggledFrom(characters, c, i - 1);
      assert r[i - 1] == characters[i];
    } else if k < 0 || i < k {
      ToggledFrom(characters, c, i);
    }
  }

  /** Toggling changes whether the toggled id is selected, and nothing
      about any other id. */
  lemma ToggleFlips(characters: seq<Entity>, c: Entity, id: string)
    requires UniqueIds(characters)
    ensures IsSelected(Toggled(characters, c), id) <==>
      if id == c.id then !IsSelected(characters, id) else IsSelected(characters, id)
  {
    if id == c.id {
      ToggleSelf(characters, c);
    } else {
      ToggleOther(characters, c, id);
    }
  }

  /** Toggling keeps the ids distinct. */
  lemma ToggleKeepsUnique(characters: seq<Entity>, c: Entity)
    requires UniqueIds(characters)
    ensures UniqueIds(Toggled(characters, c))
  {
    var r := Toggled(characters, c);
    var k := IndexOf(characters, c.id);
    forall i, j | 0 <= i < j < |r|
      ensures r[i].id != r[j].id
    {
      ToggledFrom(characters, c, i);
      ToggledFrom(characters, c, j);
    }
  }

  /** Toggling the same character twice restores which ids are selected;
      when it was not selected, the list itself comes back. */
  lemma {:induction false} ToggleTwice(characters: seq<Entity>, c: Entity)
    requires UniqueIds(characters)
    ensures forall id :: IsSelected(Toggled(Toggled(characters, c), c), id) <==> IsSelected(characters, id)
    ensures !IsSelected(characters, c.id) ==> Toggled(Toggled(characters, c), c) == characters
  {
    var once := Toggled(characters, c);
    ToggleKeepsUnique(characters, c);
    forall id
      ensures IsSelected(Toggled(once, c), id) <==> IsSelected(characters, id)
    {
      ToggleFlips(characters, c, id);
      ToggleFlips(once, c, id);
    }
    if !IsSelected(characters, c.id) {
      assert once[|characters|] == c;
      var k := IndexOf(once, c.id);
      assert k == |characters|;
      assert once[..k] == characters;
    }
  }

  /** `toggleCharacter` on the whole state: only the characters change. */
  function WithToggled(s: Selections, c: Entity): (t: Selections)
    ensures t.characters == Toggled(s.characters, c)
    ensures t.playerName == s.playerName && t.world == s.world && t.realm == s.realm
    ensures t.campaign == s.campaign && t.session == s.session && t.error == s.error
  {
    s.(characters := Toggled(s.characters, c))
  }

  // ------------------------------------------------------------- store

  /** The store, updated in place by its actions. */
  class SessionStore {
    var playerName: string
    var selectedWorld: Option<Entity>
    var selectedRealm: Option<Entity>
    var selectedCampaign: Option<Entity>
    var selectedCharacters: seq<Entity>
    var currentSession: Option<Entity>
    var error: Option<string>

    function State(): Selections
      reads this
    {
      Selections(playerName, selectedWorld, selectedRealm, selectedCampaign,
                 selectedCharacters, currentSession, error)
    }

    constructor ()
      ensures State() == Initial
    {
      playerName := "";
      selectedWorld, selectedRealm, selectedCampaign := None, None, None;
      selectedCharacters := [];
      currentSession, error := None, None;
    }

    method SetPlayerName(name: string)
      modifies this
      ensures State() == WithPlayerName(old(State()), name)
    {
      playerName := Strip(name);
    }

    method SetWorld(world: Option<Entity>)
      modifies this
      ensures State() == WithWorld(old(State()), world)
    {
      selectedWorld := world;
      selectedRealm := None;
      selectedCampaign := None;
      selectedCharacters := [];
      currentSession := None;
    }

    method SetRealm(realm: Option<Entity>)
      modifies this
      ensures State() == WithRealm(old(State()), realm)
    {
      selectedRealm := realm;
      selectedCampaign := None;
      selectedCharacters := [];
      currentSession := None;
    }

    method SetCampaign(campaign: Option<Entity>)
      modifies this
      ensures State() == WithCampaign(old(State()), campaign)
    {
      selectedCampaign := campaign;
      selectedCharacters := [];
      currentSession := None;
    }

    method SetCharacters(characters: seq<Entity>)
      modifies this
      ensures State() == WithCharacters(old(State()), characters)
    {
      selectedCharacters := characters;
      currentSession := None;
    }

    method ToggleCharacter(character: Entity)
      modifies this
      ensures State() == WithToggled(old(State()), character)
    {
      var index := IndexOf(selectedCharacters, character.id);
      if index >= 0 {
        selectedCharacters := selectedCharacters[..index] + selectedCharacters[index + 1..];
      } else {
        selectedCharacters := selectedCharacters + [character];
      }
    }

    function IsCharacterSelected(characterId: string): (r: bool)
      reads this
      ensures r <==> exists i :: 0 <= i < |selectedCharacters| && selectedCharacters[i].id == characterId
    {
      IsSelected(selectedCharacters, characterId)
    }

    method SetSession(session: Option<Entity>)
      modifies this
      ensures State() == WithSession(old(State()), session)
    {
      currentSession := session;
    }

    method ResetSession()
      modifies this
      ensures State() == Initial
    {
      playerName := "";
      selectedWorld := None;
      selectedRealm := None;
      selectedCampaign := None;
      selectedCharacters := [];
      currentSession := None;
      error := None;
    }
  }
}
