/** Concrete cases over the model: a blocked axis beside a
    free one, the goblin fight at level 1, a kill that levels up, and a full
    attack/counter-attack exchange.
 */
module Scenarios {
  import opened Entities
  import opened Geometry
  import opened Movement
  import opened Detection
  import opened Combat

  /** The goblin of the initial world. */
  const Goblin: Enemy := InitialEnemies[0]

  /** From (100, 100) with right and down held and a wall at (120, 100): the
      right step is refused, while the down step still applies. */
  lemma BlockedRightStillMovesDown()
    ensures var wall := Obstacle(120, 100, 80, 80, "tree");
            var keys := map["arrowright" := true, "arrowdown" := true];
            var q := MovedPlayer(keys, InitialPlayer.(x := 100, y := 100), [wall], PlayerSize, CanvasWidth, CanvasHeight);
            q.x == 100 && q.y == 103 && q.direction == Right && q.isMoving
  {
    var wall := Obstacle(120, 100, 80, 80, "tree");
    var keys := map["arrowright" := true, "arrowdown" := true];
    assert DeltaX(keys) == 3 && DeltaY(keys) == 3;
    assert HitsObstacle([wall], 103, 100, PlayerSize) by {
      assert Blocks([wall][0], 103, 100, PlayerSize);
    }
    assert !HitsObstacle([wall], 100, 103, PlayerSize);
    FacingInCheckOrder(keys, InitialPlayer.direction);
  }

  /** At level 1 the damage draw spans 15 values, so the hardest hit is 19: a
      hit of 20 cannot be drawn. */
  lemma LevelOneHitsAtMostNineteen(roll: int)
    requires IsFloorDraw(AttackSpan(1), roll)
    ensures MinDamage <= roll + MinDamage <= 19
  {
  }

  /** The hardest level-1 hit on the fresh goblin leaves it at 11; the fight
      goes on, on the goblin's turn, with its counter-attack waiting. */
  lemma HardestHitOnGoblin()
    ensures var r := PlayerAttack(InitialPlayer, StartCombat(Goblin), InitialEnemies, 14);
      && r.combat.inCombat && !r.combat.playerTurn
      && r.combat.enemy == Some(Goblin.(health := 11))
      && r.enemies == InitialEnemies
      && r.counter == Some(Snapshot(InitialPlayer, Goblin))
  {
  }

  /** Any hit of 15 or more on a goblin at 15 health kills it: the world goblin
      is removed, 15 experience is gained, and the fight is over. */
  lemma KillWoundedGoblin(roll: int)
    requires 10 <= roll < AttackSpan(1)
    ensures var r := PlayerAttack(InitialPlayer, StartCombat(Goblin.(health := 15)), InitialEnemies, roll);
      && r.player.experience == 15 && r.player.level == 1
      && r.enemies == [InitialEnemies[1]]
      && !r.combat.inCombat && r.combat.enemy.None? && r.combat.playerTurn
      && r.counter.None?
  {
    assert RemoveEnemy(InitialEnemies[1..], Goblin.id) == [InitialEnemies[1]];
  }

  /** With 95 experience at level 1, a goblin kill brings 110 experience and
      level 2, with health restored to the maximum. */
  lemma KillLevelsUp(roll: int)
    requires 10 <= roll < AttackSpan(1)
    ensures var p := InitialPlayer.(experience := 95, health := 40);
            var r := PlayerAttack(p, StartCombat(Goblin.(health := 15)), InitialEnemies, roll);
      && r.player.experience == 110 && r.player.level == 2 && r.player.health == p.maxHealth
  {
  }

  /** Turn alternation: after a hit the enemy survives, it is the enemy's
      turn; the counter-attack it scheduled hands the turn back, in the same
      fight unless the player falls, and the combat invariant holds throughout. */
  lemma AttackThenCounterAttack(p: Player, c: CombatState, enemies: seq<Enemy>, roll: int, counterRoll: int)
    requires Consistent(c) && PlayerMayAttack(c)
    requires IsFloorDraw(AttackSpan(p.level), roll)
    requires c.enemy.value.health > roll + MinDamage
    requires IsFloorDraw(EnemyPower(c.enemy.value), counterRoll)
    ensures var r := PlayerAttack(p, c, enemies, roll);
      && !r.combat.playerTurn && r.combat.inCombat && r.counter.Some?
      && var s := r.counter.value;
         var x := EnemyAttack(r.player, r.combat, Some(s.player), Some(s.enemy), counterRoll);
      && x.combat.playerTurn && Consistent(x.combat)
      && (x.player.health > 0 ==> x.combat.inCombat && x.combat.enemy == r.combat.enemy)
      && (x.player.health == 0 ==> !x.combat.inCombat)
  {
  }
}
