/** The save boundary: the key a game is stored under, the record a save
    writes, and how a loaded record is laid over the current state. The store
    itself, the text encoding and the timestamp are outside the model; a
    record is its decoded value, with a missing field as `None`.
 */
module Persistence {
  import opened Entities

  /** The player fields a save writes. */
  datatype SavedPlayer = SavedPlayer(
    x: Option<int>, y: Option<int>,
    health: Option<int>, maxHealth: Option<int>,
    level: Option<int>, experience: Option<int>,
    inventory: Option<seq<Item>>, direction: Option<Direction>)

  /** The game-state fields a loaded record may carry. */
  datatype SavedGameState = SavedGameState(
    currentMap: Option<string>, npcs: Option<seq<Npc>>,
    enemies: Option<seq<Enemy>>, items: Option<seq<Item>>)

  datatype SaveRecord = SaveRecord(player: Option<SavedPlayer>, gameState: Option<SavedGameState>)

  const SaveKeyPrefix: string := "pixelLegendsSave_"

  /** `pixelLegendsSave_<name>`, with `default` standing in for an empty name. */
  function SaveKey(playerName: string): (key: string)
    ensures |SaveKeyPrefix| < |key| && key[..|SaveKeyPrefix|] == SaveKeyPrefix
    ensures playerName != "" ==> key[|SaveKeyPrefix|..] == playerName
    ensures playerName == "" ==> key == SaveKeyPrefix + "default"
  {
    SaveKeyPrefix + if playerName == "" then "default" else playerName
  }

  /** Two names share a save slot exactly when they are equal, or when one is
      empty and the other is literally `default`. */
  lemma SaveKeyCollisions(a: string, b: string)
    ensures SaveKey(a) == SaveKey(b) <==> a == b || (a == "" && b == "default") || (a == "default" && b == "")
  {
    var n := |SaveKeyPrefix|;
    if SaveKey(a) == SaveKey(b) {
      assert SaveKey(a)[n..] == if a == "" then "default" else a;
      assert SaveKey(b)[n..] == if b == "" then "default" else b;
    }
  }

  /** The player part of the record `saveGameDataToLocalStorage` writes. */
  function SavePlayer(p: Player): SavedPlayer
  {
    SavedPlayer(Some(p.x), Some(p.y), Some(p.health), Some(p.maxHealth),
                Some(p.level), Some(p.experience), Some(p.inventory), Some(p.direction))
  }

  /** The whole record a save writes: the player part and the map key only. */
  function SaveRecordOf(p: Player, gs: GameState): (r: SaveRecord)
    ensures r.player.Some? && r.gameState.Some?
    ensures r.gameState.value == SavedGameState(Some(gs.currentMap), None, None, None)
  {
    SaveRecord(Some(SavePlayer(p)), Some(SavedGameState(Some(gs.currentMap), None, None, None)))
  }

  /** A present field overrides; an absent one keeps `current`. */
  function Overlay<T>(v: Option<T>, current: T): T
  {
    if v.Some? then v.value else current
  }

  /** `{ ...prev, ...loaded.player }`: each stored field overrides, every other
      field of the current player stays. */
  function MergePlayer(prev: Player, s: SavedPlayer): (p: Player)
    ensures p.isMoving == prev.isMoving && p.playerName == prev.playerName
    ensures s.x.Some? ==> p.x == s.x.value
    ensures s.x.None? ==> p.x == prev.x
    ensures s.y.Some? ==> p.y == s.y.value
    ensures s.y.None? ==> p.y == prev.y
    ensures s.health.Some? ==> p.health == s.health.value
    ensures s.health.None? ==> p.health == prev.health
    ensures s.maxHealth.Some? ==> p.maxHealth == s.maxHealth.value
    ensures s.maxHealth.None? ==> p.maxHealth == prev.maxHealth
    ensures s.level.Some? ==> p.level == s.level.value
    ensures s.level.None? ==> p.level == prev.level
    ensures s.experience.Some? ==> p.experience == s.experience.value
    ensures s.experience.None? ==> p.experience == prev.experience
    ensures s.inventory.Some? ==> p.inventory == s.inventory.value
    ensures s.inventory.None? ==> p.inventory == prev.inventory
    ensures s.direction.Some? ==> p.direction == s.direction.value
    ensures s.direction.None? ==> p.direction == prev.direction
  {
    prev.(x := Overlay(s.x, prev.x), y := Overlay(s.y, prev.y),
          health := Overlay(s.health, prev.health), maxHealth := Overlay(s.maxHealth, prev.maxHealth),
          level := Overlay(s.level, prev.level), experience := Overlay(s.experience, prev.experience),
          inventory := Overlay(s.inventory, prev.inventory), direction := Overlay(s.direction, prev.direction))
  }

  /** The map key and the three world lists fall back to the initial data when
      the record lacks them; an empty map key counts as lacking. The overlay
      flags and the dialogue fields stay. */
  function MergeGameState(prev: GameState, s: SavedGameState): (gs: GameState)
    ensures gs.currentMap != ""
    ensures s.currentMap.Some? && s.currentMap.value != "" ==> gs.currentMap == s.currentMap.value
    ensures s.currentMap.None? || s.currentMap.value == "" ==> gs.currentMap == InitialGameState.currentMap
    ensures s.npcs.Some? ==> gs.npcs == s.npcs.value
    ensures s.npcs.None? ==> gs.npcs == InitialNpcs
    ensures s.enemies.Some? ==> gs.enemies == s.enemies.value
    ensures s.enemies.None? ==> gs.enemies == InitialEnemies
    ensures s.items.Some? ==> gs.items == s.items.value
    ensures s.items.None? ==> gs.items == InitialItems
    ensures gs == prev.(currentMap := gs.currentMap, npcs := gs.npcs, enemies := gs.enemies, items := gs.items)
  {
    prev.(currentMap := if s.currentMap.Some? && s.currentMap.value != "" then s.currentMap.value else InitialGameState.currentMap,
          npcs := Overlay(s.npcs, InitialGameState.npcs),
          enemies := Overlay(s.enemies, InitialGameState.enemies),
          items := Overlay(s.items, InitialGameState.items))
  }

  /** The load effect: a record is applied only when it has both a player and
      a game-state part; otherwise the current state stands. */
  function ApplyLoad(p: Player, gs: GameState, loaded: Option<SaveRecord>): (r: (Player, GameState))
    ensures !(loaded.Some? && loaded.value.player.Some? && loaded.value.gameState.Some?) ==> r == (p, gs)
    ensures loaded.Some? && loaded.value.player.Some? && loaded.value.gameState.Some? ==>
      r == (MergePlayer(p, loaded.value.player.value), MergeGameState(gs, loaded.value.gameState.value))
    ensures r.0.playerName == p.playerName && r.0.isMoving == p.isMoving
    ensures r.1.showDialogue == gs.showDialogue && r.1.showInventory == gs.showInventory && r.1.showMap == gs.showMap
  {
    if loaded.Some? && loaded.value.player.Some? && loaded.value.gameState.Some? then
      (MergePlayer(p, loaded.value.player.value), MergeGameState(gs, loaded.value.gameState.value))
    else (p, gs)
  }

  /** Loading what a save wrote restores every saved player field and the map
      key (an empty key becomes the forest), while the world lists go back to
      the initial data, since a save does not write them. */
  lemma SaveThenLoad(p: Player, gs: GameState, p0: Player, gs0: GameState)
    ensures ApplyLoad(p0, gs0, Some(SaveRecordOf(p, gs)))
         == (p0.(x := p.x, y := p.y, health := p.health, maxHealth := p.maxHealth, level := p.level,
                 experience := p.experience, inventory := p.inventory, direction := p.direction),
             gs0.(currentMap := if gs.currentMap == "" then "forest" else gs.currentMap,
                  npcs := InitialNpcs, enemies := InitialEnemies, items := InitialItems))
  {
  }

  /** Saving again after a load of a save writes the same player part. */
  lemma SaveLoadSaveRoundTrip(p: Player, gs: GameState, p0: Player, gs0: GameState)
    ensures SavePlayer(ApplyLoad(p0, gs0, Some(SaveRecordOf(p, gs))).0) == SavePlayer(p)
  {
  }
}
