# Pixel Legends game core in Dafny

This project models the core of the Pixel Legends browser RPG:
- **Movement.** One movement step of the player runs once per tick. Held keys give a per-axis delta. Each axis is tested against every obstacle with the other coordinate unmoved, and a blocked axis is rolled back. The result is clamped to the canvas.
- **Proximity scans.** The first NPC in range opens its dialogue. Every item in range moves from the world list to the end of the inventory. The first enemy in range starts a fight against a copy of itself.
- **Combat.** The player's attack gains experience and can level up once, or it hands the turn to the enemy. The enemy's delayed counter-attack follows. The combat overlay's flee action and the free hit after a failed flee complete the set.
- **Save boundary.** This covers the save key `pixelLegendsSave_<name>` and what a save writes. It also covers how a loaded record, and the data the hub hands to a new session, are laid over the session.
- **Game session.** The session is a class. Its fields are the player, the world, the combat state, the held keys and the loaded flag. Its methods are the tick, the key handlers, the load effect, the overlay actions and the delayed callbacks.

Modelling choices:
- Coordinates are integers. The source's `Math.sqrt(d²) < r` range tests become `4·d² < (2r)²`, which avoids square roots.
- A JavaScript `v || d` on a numeric field becomes `OrDefault(v, d)`, with 0 standing for an absent field.
- Each `Math.random()` draw is a parameter, constrained to the values the draw can produce: `IsFloorDraw(n, roll)` for `Math.floor(Math.random() * n)`, and a real in `[0, 1)` for the flee draw.
- Every `setTimeout` continuation is a separate session method. It takes the snapshot its closure captured (`Combat.Snapshot`) and reads the session's current state. That is how the source's mix of captured and current values is kept.
- The combat log is a datatype with one constructor per message template.

Files:
- `entities.dfy`: records and initial data.
- `geometry.dfy`: overlap, distance, clamp and draws.
- `movement.dfy`
- `detection.dfy`
- `combat.dfy`
- `combat_interface.dfy`
- `persistence.dfy`
- `session.dfy`
- `scenarios.dfy`: concrete cases.

Behaviour of the code that the model keeps, where it may surprise a reader:
- **Diagonal steps.** A diagonal step can end inside an obstacle's corner, because each axis is tested with the other one unmoved. `Movement.DiagonalStepCanEndInsideObstacle` exhibits a case. The box can therefore end a tick inside an obstacle; what holds is the per-axis rejection rule (`Movement.PerAxisRejection`).
- **Encounter position.** A tick's encounter check uses the position the tick started from. The tick's closure still holds the unmoved player.
- **Log after the fight.** Victory and defeat by the counter-attack keep the combat log. A successful flee and a defeat during a flee's free hit clear it.
- **Flee free hit.** The damage comes off the current health, but the defeat test uses the health captured when the flee failed.
- **Save and reopen.** A save hands the world lists to the hub, but the stored record carries none. Reopening after a save therefore restores the lists, and then the load effect puts them back to the initial data (`Session.ReopenAfterSaveResetsWorld`).
- **Damage 20 at level 1.** A level-1 hit of 20 on the goblin cannot be drawn. The damage is `floor(random·15) + 5`, at most 19 (`Scenarios.LevelOneHitsAtMostNineteen`). `Scenarios.HardestHitOnGoblin` states the closest case, a hit of 19 that leaves the goblin at 11.

## Model

| member | source | states |
|---|---|---|
| Geometry.Clamp | src/components/rpg/gameLogic.js:70-71 | the clamped coordinate lies in `[0, hi]` when `hi >= 0`: it is unchanged when already inside, `hi` when above and 0 when below; with `hi < 0` it is 0 |
| Movement.MovedPlayer | src/components/rpg/gameLogic.js:3-80 | after a step the player lies inside the canvas on both axes, and only position, facing and the moving flag change |
| Movement.UpdatePlayerMovement | src/components/rpg/gameLogic.js:3-80 | the key checks, the obstacle loop with its two flags, the roll-back and the clamp compute exactly `MovedPlayer` |
| Movement.PerAxisRejection | src/components/rpg/gameLogic.js:36-68 | an axis whose moved box hits an obstacle keeps its coordinate, and a free axis moves by exactly its delta, before the clamp |
| Movement.MovingIffUnpairedKey | src/components/rpg/gameLogic.js:13-30 | the player is moving iff left≠right or up≠down is held, so opposite keys cancel |
| Movement.FacingInCheckOrder | src/components/rpg/gameLogic.js:13-28 | checking up, down, left, right in order leaves the facing of the last held key: right over left over down over up, else unchanged |
| Movement.LastHeldIsLastHeldKey | src/components/rpg/gameLogic.js:13-28 | for any check order, the facing is the start value when no key is held, and otherwise the last held direction of the order |
| Movement.FacingFromKeys | src/components/rpg/gameLogic.js:13-28 | after a step the player faces right if right is held, else left, else down, else up, else keeps its facing |
| Movement.DiagonalStepCanEndInsideObstacle | src/components/rpg/gameLogic.js:38-68 | from (78,78) with down and right held, neither single-axis test hits the tree at (100,100), yet the box ends at (81,81) overlapping it |
| Detection.FirstNpcInRange | src/components/rpg/gameLogic.js:85-87 | the index returned is in range and every earlier NPC is out of range; none is returned iff no NPC is in range |
| Detection.HandleNpcInteraction | src/components/rpg/gameLogic.js:82-98 | the scan fires iff some NPC is in range, and then opens the first such NPC's name and dialogue; otherwise the state is unchanged |
| Detection.Collected | src/components/rpg/gameLogic.js:104-106 | every collected item is in range and comes from the list, and nothing is collected iff no item is in range |
| Detection.Remaining | src/components/rpg/gameLogic.js:104-119 | every item left in the world is out of range and comes from the list |
| Detection.HandleItemCollection | src/components/rpg/gameLogic.js:100-128 | the filter loop appends the in-range items to the inventory in order and leaves exactly the out-of-range ones, and the world list changes only when something was collected |
| Detection.FilterItems | src/components/rpg/gameLogic.js:103-119 | the filter pass takes exactly the in-range items in order, keeps exactly the others in order, and raises the flag iff it took something |
| Detection.FilterSnoc | src/components/rpg/gameLogic.js:104-119 | one more item at the end of the list is taken iff it is in range and kept otherwise, independently of the items before it |
| Detection.CollectedDistributes | src/components/rpg/gameLogic.js:104-119 | collecting from a concatenation collects from each part in turn |
| Detection.RemainingDistributes | src/components/rpg/gameLogic.js:104-119 | what a concatenation leaves is what each part leaves, in turn |
| Detection.CollectionPartitions | src/components/rpg/gameLogic.js:104-119 | collected and remaining items together are the world list as a multiset, so each item lands in exactly one of them |
| Detection.NothingInRangeRemainsAll | src/components/rpg/gameLogic.js:121-126 | with no item in range the world list stays whole |
| Detection.CollectAgainCollectsNothing | src/components/rpg/gameLogic.js:100-128 | a second collection at the same position collects nothing and keeps the list |
| Detection.FirstEnemyInRange | src/components/rpg/gameLogic.js:134-136 | the index returned is in encounter range and every earlier enemy is out of range; none is returned iff no enemy is in range |
| Detection.CheckEnemyEncounter | src/components/rpg/gameLogic.js:131-151 | the scan fires iff some enemy is in range, and then starts a fight on the player's turn against a copy of the first one, with one log line; otherwise combat is unchanged |
| Combat.RemoveEnemy | src/components/rpg/gameLogic.js:182-185 | no enemy with the id survives, every other enemy does, and an absent id leaves the list unchanged |
| Combat.RemoveEnemySingle | src/components/rpg/gameLogic.js:184 | on a single enemy, removal drops it iff its id is the one removed |
| Combat.RemoveEnemyDistributes | src/components/rpg/gameLogic.js:184 | removal distributes over concatenation, so the survivors keep their order and multiplicity |
| Combat.PlayerAttack | src/components/rpg/gameLogic.js:153-219 | a no-op unless it is the player's turn against an enemy. Damage is in `[5, level·5+15)`. A kill grants `experienceYield \|\| 25`, levels up at most once (iff experience reaches `level·100`, with a full heal), removes the world enemy and ends the fight. A survivor loses the damage, the turn passes and a counter-attack is scheduled. The combat invariant holds |
| Combat.EnemyAttack | src/components/rpg/gameLogic.js:223-268 | without a target or attacker, only the turn returns, with an aborted entry. Otherwise health becomes `max(0, captured health − damage)` with damage in `[5, attackPower+5)`. Defeat ends the fight; survival returns the turn. The turn always comes back, no fight is started, and health stays in `[0, maxHealth]` |
| CombatInterface.Flee | src/components/rpg/CombatInterface.jsx:14-33 | above one half the fight is dropped and the log cleared; otherwise it is the enemy's turn, a failure entry is logged, and a free hit is scheduled over the current player and enemy |
| CombatInterface.FleePenalty | src/components/rpg/CombatInterface.jsx:22-31 | damage in `[5, attackPower+5)` comes off the current health. A defeat judged on the captured health drops the fight and clears the log; otherwise the turn returns with a hit entry |
| Persistence.SaveKey | src/components/RPGGame.jsx:57 | the key is the save prefix followed by the name, `default` for an empty name |
| Persistence.SaveKeyCollisions | src/components/RPGGame.jsx:57 | two names share a save slot iff they are equal or they are the empty name and `default` |
| Persistence.SaveRecordOf | src/components/rpg/gameLogic.js:270-290 | a save writes a player part and a game-state part holding only the map key |
| Persistence.MergePlayer | src/components/RPGGame.jsx:60 | each of the eight saved player fields takes the record's value when present and keeps the current one when absent; the name and moving flag never change |
| Persistence.MergeGameState | src/components/RPGGame.jsx:61-67 | the map key is the record's when present and non-empty, else `forest`; each of NPCs, enemies and items is the record's list when present, else the initial list; nothing else changes |
| Persistence.ApplyLoad | src/components/RPGGame.jsx:56-71 | a record with both parts merges the player part over the player and the world part over the world; any other record changes nothing; the name, moving flag and overlay flags are never touched |
| Persistence.SaveThenLoad | src/components/RPGGame.jsx:56-71 | loading what a save wrote restores every saved player field and the map key, while the world lists return to the initial data |
| Persistence.SaveLoadSaveRoundTrip | src/components/rpg/gameLogic.js:270-290 | saving again after loading a save writes the same player part |
| Session.ToggleTwiceRestores | src/components/RPGGame.jsx:145-146 | `i` flips exactly the inventory overlay and `m` exactly the map overlay, other keys flip nothing, and a second press restores the state |
| Session.InteractDoesOneThing | src/components/RPGGame.jsx:139-144 | an interaction either opens a dialogue (inventory and items untouched) or collects items (dialogue untouched), and changes nothing else |
| Session.HubPlayer | src/components/RPGGame.jsx:32-40 | the opening player is the hub's player (or the initial one when the hub has none) in every field but the name, which is the hub's name, or `Hero` when that is empty |
| Session.HubWorld | src/components/RPGGame.jsx:162-166 | the world part a save hands to the hub carries the map key and all three lists |
| Session.HubReopenRestores | src/components/RPGGame.jsx:32-49 | a session opened from what a save handed the hub restores the player, the map key and the world lists |
| Session.ReopenAfterSaveResetsWorld | src/components/RPGGame.jsx:55-71 | after a save and a reopen, the load effect keeps the player but resets NPCs, enemies and items to the initial data |
| Session.GameSession.constructor | src/components/RPGGame.jsx:32-51 | a new session holds the hub's player and world, no fight, no held key, not yet loaded |
| Session.GameSession.Load | src/components/RPGGame.jsx:55-71 | the record under the player's save key is laid over the session, and the session is loaded either way |
| Session.GameSession.Tick | src/components/RPGGame.jsx:76-85 | nothing happens in combat or before the load; otherwise one movement step, then an encounter check at the position the tick started from. The world and the keys are unchanged, and the combat invariant holds |
| Session.GameSession.KeyDown | src/components/RPGGame.jsx:136-147 | the lower-cased key is held. A space, out of combat and with no dialogue open, interacts. Then `i`/`m` toggle their overlays, and combat is unchanged |
| Session.GameSession.KeyUp | src/components/RPGGame.jsx:148 | the lower-cased key is released and nothing else changes |
| Session.GameSession.CloseDialogue | src/components/RPGGame.jsx:216 | only the dialogue flag is cleared |
| Session.GameSession.Save | src/components/RPGGame.jsx:158-168 | the store key and record, and the player and world handed to the hub, are those of the current session |
| Session.GameSession.Attack | src/components/rpg/CombatInterface.jsx:10-12 | outside the player's turn in a fight nothing changes; otherwise the attack's player, combat and world enemies are taken over and its counter-attack returned |
| Session.GameSession.EnemyCounterAttack | src/components/rpg/gameLogic.js:214-217 | the scheduled counter-attack applies the enemy hit over its snapshot and always returns the turn to the player |
| Session.GameSession.Flee | src/components/rpg/CombatInterface.jsx:14-33 | outside the player's turn in a fight nothing changes; otherwise the flee outcome is applied and its free hit returned |
| Session.GameSession.FleeFreeHit | src/components/rpg/CombatInterface.jsx:22-31 | the scheduled free hit applies over its snapshot and always returns the turn to the player |
| Scenarios.BlockedRightStillMovesDown | src/components/rpg/gameLogic.js:36-68 | from (100,100) beside a wall at (120,100), the right step is refused while the down step applies |
| Scenarios.LevelOneHitsAtMostNineteen | src/components/rpg/gameLogic.js:156 | a level-1 hit is between 5 and 19 |
| Scenarios.HardestHitOnGoblin | src/components/rpg/gameLogic.js:205-217 | a hit of 19 leaves the fresh goblin at 11 on its own turn with a counter-attack waiting |
| Scenarios.KillWoundedGoblin | src/components/rpg/gameLogic.js:156-192 | any hit of at least 15 on a goblin at 15 health removes it from the world, grants 15 experience and ends the fight |
| Scenarios.KillLevelsUp | src/components/rpg/gameLogic.js:163-180 | with 95 experience at level 1, a goblin kill gives 110 experience, level 2 and full health |
| Scenarios.AttackThenCounterAttack | src/components/rpg/gameLogic.js:205-268 | after a surviving hit it is the enemy's turn; the counter-attack returns the turn in the same fight unless the player falls, and the combat invariant holds throughout |

## Left out

- Rendering is not modelled: the canvas draw loop, the overlay components, animations and toasts.
- Timing is not modelled: `setInterval`, `setTimeout` and `requestAnimationFrame`. Ticks and delayed callbacks are separate methods, in any order the caller chooses, so a stale callback can be applied after its fight ended, as in the source.
- `Math.random` is replaced by draw parameters.
- The store is a `map` from key to decoded record. JSON text, parse failures (which behave as a missing record) and the save timestamp are not modelled.
- Case conversion covers ASCII only: `toLowerCase` on non-ASCII key names is not modelled.
- The `!player` / `!gameState` / missing-list guards are not modelled: the typed model always has a player and a world with lists.
- The unused player `size` and `speed` fields and the item and enemy `size` fields are not modelled; the item type is kept as `Item.kind`.
- The overlays' close buttons for the inventory and the map are not modelled; they are single flag clears like `Session.GameSession.CloseDialogue`.
- Non-overlay buttons (navigation, header) are not modelled.
- A hub record with a partial player object is not modelled: `Session.HubPlayer` takes the hub's player whole, which is what the hub holds after a save.
- The hub's map key is applied as stored, even when empty, as the source's spread does.
- Canvas size changes are not modelled: the tick uses the fixed 800×600 canvas.
- `Combat.PlayerAttack`: the bounds on damage and on the enemy's remaining health are stated only for a positive draw width (`level·5 + 10 > 0`). A level below −1 would make the source's draw negative, and no such level is reachable.
- `Combat.EnemyAttack`: the damage bounds are stated only for a positive attack power (`attackPower || 15 > 0`), for the same reason.
