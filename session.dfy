/** The game session (`RPGGame`): the player, the world, the combat state, the
    held keys and the loaded flag, updated in place by the tick, the key
    handlers, the load effect, the combat overlay's actions and the delayed
    callbacks those actions schedule. Each delayed callback is its own method,
    handed the snapshot its closure captured and the draw it makes.
 */
module Session {
  import opened Entities
  import opened Geometry
  import opened Movement
  import opened Detection
  import opened Combat
  import opened CombatInterface
  import opened Persistence

  /** The key that triggers an interaction, compared before lower-casing. */
  const InteractKey: string := " "

  /** ASCII lower-casing of one character. */
  function LowerChar(c: char): char
  {
    if 'A' <= c <= 'Z' then (c as int + 32) as char else c
  }

  /** `key.toLowerCase()` over ASCII: the name a key is held under. */
  function Lower(s: string): string
  {
    seq(|s|, i requires 0 <= i < |s| => LowerChar(s[i]))
  }

  /** The overlay toggles of a key press: `i` flips the inventory, `m` the map. */
  function Toggled(gs: GameState, lowered: string): (r: GameState)
  {
    var gs1 := if lowered == "i" then gs.(showInventory := !gs.showInventory) else gs;
    if lowered == "m" then gs1.(showMap := !gs1.showMap) else gs1
  }

  /** Pressing the same overlay key twice restores the state, and a press
      changes nothing but the two overlay flags, and only for `i` or `m`. */
  lemma ToggleTwiceRestores(gs: GameState, lowered: string)
    ensures Toggled(Toggled(gs, lowered), lowered) == gs
    ensures Toggled(gs, lowered) == gs.(showInventory := Toggled(gs, lowered).showInventory, showMap := Toggled(gs, lowered).showMap)
    ensures Toggled(gs, lowered).showInventory != gs.showInventory <==> lowered == "i"
    ensures Toggled(gs, lowered).showMap != gs.showMap <==> lowered == "m"
  {
  }

  /** An interaction at the player's position: talk to the first NPC in range;
      only when there is none, collect the items in range. */
  function Interact(p: Player, gs: GameState): (Player, GameState)
  {
    if FirstNpcInRange(p, gs.npcs).Some? then (p, NpcInteracted(p, gs)) else ItemsCollected(p, gs)
  }

  /** An interaction does at most one thing: opening a dialogue leaves the
      inventory and the world items alone, and collecting leaves the dialogue
      alone. Nothing else of the player or the world changes. */
  lemma InteractDoesOneThing(p: Player, gs: GameState)
    ensures var (p', gs') := Interact(p, gs);
      && p' == p.(inventory := p'.inventory)
      && gs' == gs.(showDialogue := gs'.showDialogue, currentDialogue := gs'.currentDialogue,
                    currentDialogueNpcName := gs'.currentDialogueNpcName, items := gs'.items)
      && (FirstNpcInRange(p, gs.npcs).Some? ==> p' == p && gs'.items == gs.items && gs'.showDialogue)
      && (FirstNpcInRange(p, gs.npcs).None? ==>
            && gs'.showDialogue == gs.showDialogue && gs'.currentDialogue == gs.currentDialogue
            && gs'.currentDialogueNpcName == gs.currentDialogueNpcName
            && p'.inventory == p.inventory + Collected(p, gs.items))
  {
  }

  /** The player a session opens with: the hub's player (or the initial one)
      under the hub's name, `Hero` when that name is empty. */
  function HubPlayer(hubName: string, hubPlayer: Option<Player>): (r: Player)
    ensures r.playerName != ""
    ensures hubName != "" ==> r.playerName == hubName
    ensures hubName == "" ==> r.playerName == InitialPlayer.playerName
    ensures r == (if hubPlayer.Some? then hubPlayer.value else InitialPlayer).(playerName := r.playerName)
  {
    (if hubPlayer.Some? then hubPlayer.value else InitialPlayer)
      .(playerName := if hubName == "" then InitialPlayer.playerName else hubName)
  }

  /** The world a session opens with: each field the hub carries overrides the
      initial world, including an empty map key. */
  function HubGameState(hubWorld: Option<SavedGameState>): GameState
  {
    if hubWorld.None? then InitialGameState
    else
      var w := hubWorld.value;
      InitialGameState.(currentMap := Overlay(w.currentMap, InitialGameState.currentMap),
                        npcs := Overlay(w.npcs, InitialGameState.npcs),
                        enemies := Overlay(w.enemies, InitialGameState.enemies),
                        items := Overlay(w.items, InitialGameState.items))
  }

  /** The world part a save hands to the hub: the map key and the three lists. */
  function HubWorld(gs: GameState): (w: SavedGameState)
    ensures w.currentMap.Some? && w.npcs.Some? && w.enemies.Some? && w.items.Some?
  {
    SavedGameState(Some(gs.currentMap), Some(gs.npcs), Some(gs.enemies), Some(gs.items))
  }

  /** Reopening a session from what a save handed the hub restores the player
      and the map key and the world lists; the overlays start closed. */
  lemma HubReopenRestores(p: Player, gs: GameState)
    requires p.playerName != ""
    ensures HubPlayer(p.playerName, Some(p)) == p
    ensures HubGameState(Some(HubWorld(gs)))
         == InitialGameState.(currentMap := gs.currentMap, npcs := gs.npcs, enemies := gs.enemies, items := gs.items)
  {
  }

  /** But the load effect that follows finds the stored save under the same
      key, which carries no world lists, and puts them back to the initial
      data: after a save and a reopen the defeated enemies and collected
      items are back, while the player keeps its saved fields. */
  lemma ReopenAfterSaveResetsWorld(p: Player, gs: GameState)
    requires p.playerName != ""
    ensures var reopened := HubGameState(Some(HubWorld(gs)));
            var (p', gs') := ApplyLoad(HubPlayer(p.playerName, Some(p)), reopened, Some(SaveRecordOf(p, gs)));
      && p' == p
      && gs'.npcs == InitialNpcs && gs'.enemies == InitialEnemies && gs'.items == InitialItems
      && gs'.currentMap == (if gs.currentMap == "" then InitialGameState.currentMap else gs.currentMap)
  {
    HubReopenRestores(p, gs);
    SaveThenLoad(p, gs, p, HubGameState(Some(HubWorld(gs))));
  }

  class GameSession {
    var player: Player
    var gameState: GameState
    var combat: CombatState
    var keys: KeyMap
    var isLoaded: bool

    /** The combat invariant holds between events. */
    ghost predicate Valid()
      reads this
    {
      Consistent(combat)
    }

    /** A session opened from the hub's data, not yet loaded, with no key held. */
    constructor (hubName: string, hubPlayer: Option<Player>, hubWorld: Option<SavedGameState>)
      ensures Valid()
      ensures player == HubPlayer(hubName, hubPlayer) && gameState == HubGameState(hubWorld)
      ensures combat == IdleCombat && keys == map[] && !isLoaded
    {
      player := HubPlayer(hubName, hubPlayer);
      gameState := HubGameState(hubWorld);
      combat := IdleCombat;
      keys := map[];
      isLoaded := false;
    }

    /** The load effect: look the player's save key up in `store`, lay a
        complete record over the session, and mark the session loaded either way. */
    method Load(store: map<string, SaveRecord>)
      requires Valid()
      modifies this
      ensures Valid()
      ensures var key := SaveKey(old(player.playerName));
              (player, gameState) == ApplyLoad(old(player), old(gameState), if key in store then Some(store[key]) else None)
      ensures isLoaded
      ensures combat == old(combat) && keys == old(keys)
    {
      var key := SaveKey(player.playerName);
      var loaded := if key in store then Some(store[key]) else None;
      if loaded.Some? && loaded.value.player.Some? && loaded.value.gameState.Some? {
        player := MergePlayer(player, loaded.value.player.value);
        gameState := MergeGameState(gameState, loaded.value.gameState.value);
      }
      isLoaded := true;
    }

    /** One game tick: nothing in combat or before the load; otherwise one
        movement step, then an encounter check at the position the tick
        started from (the closure still holds the unmoved player). */
    method Tick()
      requires Valid()
      modifies this
      ensures Valid()
      ensures old(combat.inCombat) || !old(isLoaded) ==> player == old(player) && combat == old(combat)
      ensures !old(combat.inCombat) && old(isLoaded) ==>
        && player == MovedPlayer(old(keys), old(player), MapObstacles(old(gameState.currentMap)), PlayerSize, CanvasWidth, CanvasHeight)
        && combat == EncounterResult(old(player), old(gameState.enemies), old(combat))
      ensures gameState == old(gameState) && keys == old(keys) && isLoaded == old(isLoaded)
    {
      if combat.inCombat || !isLoaded {
        return;
      }
      var before := player;
      player := UpdatePlayerMovement(keys, player, MapObstacles(gameState.currentMap), PlayerSize, CanvasWidth, CanvasHeight);
      if !combat.inCombat {
        var fired, c := CheckEnemyEncounter(before, gameState.enemies, combat);
        combat := c;
      }
    }

    /** A key press: the key is held under its lower-cased name; a space out of
        combat and with no dialogue open interacts; then `i` and `m` toggle
        their overlays. */
    method KeyDown(key: string)
      requires Valid()
      modifies this
      ensures Valid()
      ensures keys == old(keys)[Lower(key) := true]
      ensures var interacts := key == InteractKey && !old(combat.inCombat) && !old(gameState.showDialogue);
              var after := if interacts then Interact(old(player), old(gameState)) else (old(player), old(gameState));
              player == after.0 && gameState == Toggled(after.1, Lower(key))
      ensures combat == old(combat) && isLoaded == old(isLoaded)
    {
      keys := keys[Lower(key) := true];
      if key == InteractKey && !combat.inCombat && !gameState.showDialogue {
        var talked, gs := HandleNpcInteraction(player, gameState);
        if talked {
          gameState := gs;
        } else {
          var collected, p', gs' := HandleItemCollection(player, gameState);
          player, gameState := p', gs';
        }
      }
      var lowered := Lower(key);
      if lowered == "i" {
        gameState := gameState.(showInventory := !gameState.showInventory);
      }
      if lowered == "m" {
        gameState := gameState.(showMap := !gameState.showMap);
      }
    }

    /** A key release: the key is no longer held, and nothing else changes. */
    method KeyUp(key: string)
      modifies this
      ensures keys == old(keys)[Lower(key) := false]
      ensures player == old(player) && gameState == old(gameState) && combat == old(combat) && isLoaded == old(isLoaded)
    {
      keys := keys[Lower(key) := false];
    }

    /** Closing the dialogue overlay, which lets the next space interact again. */
    method CloseDialogue()
      modifies this
      ensures gameState == old(gameState).(showDialogue := false)
      ensures player == old(player) && combat == old(combat) && keys == old(keys) && isLoaded == old(isLoaded)
    {
      gameState := gameState.(showDialogue := false);
    }

    /** `handleSaveGame`: the key and the record written to the store, and the
        player and world handed to the hub. The session itself is unchanged. */
    method Save() returns (key: string, record: SaveRecord, hubPlayer: Player, hubWorld: SavedGameState)
      ensures key == SaveKey(player.playerName)
      ensures record == SaveRecordOf(player, gameState)
      ensures hubPlayer == player && hubWorld == HubWorld(gameState)
    {
      key := SaveKey(player.playerName);
      record := SaveRecordOf(player, gameState);
      hubPlayer := player;
      hubWorld := HubWorld(gameState);
    }

    /** The overlay's Attack button: enabled only on the player's turn in a
        fight; resolves the attack and returns the counter-attack it schedules. */
    method Attack(roll: int) returns (counter: Option<Snapshot>)
      requires Valid()
      requires ActionsEnabled(combat) ==> IsFloorDraw(AttackSpan(player.level), roll)
      modifies this
      ensures Valid()
      ensures !old(ActionsEnabled(combat)) ==>
        player == old(player) && combat == old(combat) && gameState == old(gameState) && counter.None?
      ensures old(ActionsEnabled(combat)) ==>
        var r := PlayerAttack(old(player), old(combat), old(gameState.enemies), roll);
        player == r.player && combat == r.combat && gameState == old(gameState).(enemies := r.enemies) && counter == r.counter
      ensures keys == old(keys) && isLoaded == old(isLoaded)
    {
      counter := None;
      if ActionsEnabled(combat) {
        var r := PlayerAttack(player, combat, gameState.enemies, roll);
        player, combat := r.player, r.combat;
        gameState := gameState.(enemies := r.enemies);
        counter := r.counter;
      }
    }

    /** The counter-attack an attack scheduled, run over its snapshot. */
    method EnemyCounterAttack(s: Snapshot, roll: int)
      requires Valid()
      requires IsFloorDraw(EnemyPower(s.enemy), roll)
      modifies this
      ensures Valid()
      ensures var r := EnemyAttack(old(player), old(combat), Some(s.player), Some(s.enemy), roll);
              player == r.player && combat == r.combat
      ensures combat.playerTurn
      ensures gameState == old(gameState) && keys == old(keys) && isLoaded == old(isLoaded)
    {
      var r := EnemyAttack(player, combat, Some(s.player), Some(s.enemy), roll);
      player, combat := r.player, r.combat;
    }

    /** The overlay's Flee button, with the draw `roll`: enabled only on the
        player's turn in a fight; returns the free hit a failure schedules. */
    method Flee(roll: real) returns (pending: Option<Snapshot>)
      requires Valid()
      requires 0.0 <= roll < 1.0
      modifies this
      ensures Valid()
      ensures !old(ActionsEnabled(combat)) ==> combat == old(combat) && pending.None?
      ensures old(ActionsEnabled(combat)) ==>
        var r := CombatInterface.Flee(old(player), old(combat), roll);
        combat == r.combat && pending == r.pending
      ensures player == old(player) && gameState == old(gameState) && keys == old(keys) && isLoaded == old(isLoaded)
    {
      pending := None;
      if ActionsEnabled(combat) {
        var r := CombatInterface.Flee(player, combat, roll);
        combat, pending := r.combat, r.pending;
      }
    }

    /** The enemy's free hit after a failed flee, run over its snapshot. */
    method FleeFreeHit(s: Snapshot, roll: int)
      requires Valid()
      requires IsFloorDraw(EnemyPower(s.enemy), roll)
      modifies this
      ensures Valid()
      ensures var r := FleePenalty(old(player), old(combat), s, roll);
              player == r.player && combat == r.combat
      ensures combat.playerTurn
      ensures gameState == old(gameState) && keys == old(keys) && isLoaded == old(isLoaded)
    {
      var r := FleePenalty(player, combat, s, roll);
      player, combat := r.player, r.combat;
    }
  }
}
