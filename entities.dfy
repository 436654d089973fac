/** The game's records and its static data table.

    Coordinates are integers: every position in the data table is an integer,
    the speed is 3 and obstacles have integer corners, so no move ever leaves
    the integers. A numeric field the source may leave out (`width`,
    `attackPower`, `experienceYield`) is 0 when absent, because the source
    reads each through `v || default`, which treats 0 and a missing value alike.
 */
module Entities {

  datatype Option<T> = None | Some(value: T)

  /** Facing of the player sprite. */
  datatype Direction = Up | Down | Left | Right

  /** An item lying in the world or held in the inventory. */
  datatype Item = Item(id: int, x: int, y: int, kind: string, name: string)

  /** A stationary character with one line of dialogue. */
  datatype Npc = Npc(id: int, x: int, y: int, width: int, name: string, dialogue: string)

  /** A world enemy; the combat copy of one has the same shape. */
  datatype Enemy = Enemy(
    id: int, x: int, y: int, kind: string,
    health: int, maxHealth: int, width: int,
    attackPower: int, experienceYield: int)

  /** A solid rectangle of a map. */
  datatype Obstacle = Obstacle(x: int, y: int, width: int, height: int, kind: string)

  datatype Player = Player(
    x: int, y: int, direction: Direction, isMoving: bool,
    health: int, maxHealth: int, level: int, experience: int,
    inventory: seq<Item>, playerName: string)

  /** The live world of the current map and the overlay flags. */
  datatype GameState = GameState(
    currentMap: string,
    npcs: seq<Npc>, enemies: seq<Enemy>, items: seq<Item>,
    showDialogue: bool, currentDialogue: string, currentDialogueNpcName: string,
    showInventory: bool, showMap: bool)

  /** One line of the combat log; each constructor stands for one message template. */
  datatype LogEntry =
    | Encountered(enemyKind: string)                 // "Encountered a <kind>!"
    | PlayerHit(enemyKind: string, damage: int)      // "Player attacks <kind> for <d> damage."
    | EnemyDefeated(enemyKind: string, gained: int)  // "<kind> defeated! Gained <n> EXP."
    | AttackAborted                                  // "Enemy attack aborted (no target/attacker)."
    | EnemyHit(enemyKind: string, damage: int)       // "<kind> attacks Player for <d> damage."
    | PlayerDefeated                                 // "Player has been defeated!"
    | PlayersTurn                                    // "Player's turn."
    | FleeFailed                                     // "Failed to flee! Enemy's turn."
    | FleePenaltyHit(enemyKind: string, damage: int) // "<kind> attacks! Player takes <d> damage."

  /** The combat overlay's state; `enemy` is the fight's own copy of a world enemy. */
  datatype CombatState = CombatState(inCombat: bool, enemy: Option<Enemy>, playerTurn: bool, log: seq<LogEntry>)

  const PlayerSize: int := 20
  const Speed: int := 3
  const CanvasWidth: int := 800
  const CanvasHeight: int := 600

  const IdleCombat: CombatState := CombatState(false, None, true, [])

  const InitialPlayer: Player :=
    Player(400, 300, Down, false, 100, 100, 1, 0, [], "Hero")

  const InitialNpcs: seq<Npc> := [
    Npc(1, 200, 200, 0, "Village Elder", "Welcome, brave adventurer! The forest holds many secrets. Use WASD or Arrow Keys to move, Space to interact, I for Inventory, and M for Map."),
    Npc(2, 600, 400, 0, "Merchant", "I have rare items for sale! Come back when you have gold."),
    Npc(3, 300, 500, 0, "Wise Sage", "Knowledge is the greatest treasure. Seek the ancient ruins to the north.")
  ]

  const InitialEnemies: seq<Enemy> := [
    Enemy(1, 500, 200, "goblin", 30, 30, 0, 10, 15),
    Enemy(2, 700, 300, "orc", 50, 50, 0, 18, 30)
  ]

  const InitialItems: seq<Item> := [
    Item(1, 150, 350, "potion", "Health Potion"),
    Item(2, 650, 150, "sword", "Iron Sword"),
    Item(3, 400, 600, "key", "Ancient Key")
  ]

  const InitialGameState: GameState :=
    GameState("forest", InitialNpcs, InitialEnemies, InitialItems, false, "", "", false, false)

  const ForestObstacles: seq<Obstacle> := [
    Obstacle(100, 100, 80, 80, "tree"),
    Obstacle(300, 150, 60, 60, "rock"),
    Obstacle(500, 350, 100, 60, "log"),
    Obstacle(200, 450, 80, 80, "tree"),
    Obstacle(650, 500, 70, 90, "tree"),
    Obstacle(50, 300, 50, 50, "rock")
  ]

  const VillageObstacles: seq<Obstacle> := [
    Obstacle(150, 150, 100, 80, "house"),
    Obstacle(400, 200, 120, 100, "house"),
    Obstacle(600, 450, 80, 60, "well")
  ]

  /** The obstacles of a map key; an unknown key falls back to the forest. */
  function MapObstacles(currentMap: string): seq<Obstacle>
  {
    if currentMap == "village" then VillageObstacles else ForestObstacles
  }
}
