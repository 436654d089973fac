/** The combat resolution of the game logic: the player's attack and the enemy's
    delayed counter-attack, as transitions over the player, the combat state
    and the world enemy list. Each random draw is a parameter constrained to
    the values the source's draw can produce.
 */
module Combat {
  import opened Entities
  import opened Geometry

  /** What a delayed callback closes over: the player and the combat enemy as
      they were when the callback was scheduled. */
  datatype Snapshot = Snapshot(player: Player, enemy: Enemy)

  /** The result of an attack: the new player, combat state and world enemy
      list, and the counter-attack it schedules, if any. */
  datatype AttackResult = AttackResult(player: Player, combat: CombatState, enemies: seq<Enemy>, counter: Option<Snapshot>)

  /** The result of an enemy's hit: the new player and combat state. */
  datatype Exchange = Exchange(player: Player, combat: CombatState)

  const MinDamage: int := 5
  const ExperiencePerLevel: int := 100
  const DefaultExperienceYield: int := 25
  const DefaultAttackPower: int := 15

  /** The combat invariant every transition keeps: a fight is on exactly when
      there is a combat enemy, and out of combat it is always the player's turn. */
  predicate Consistent(c: CombatState)
  {
    (c.inCombat <==> c.enemy.Some?) && (!c.inCombat ==> c.playerTurn)
  }

  /** The width of the player's damage draw: `level * 5 + 10`. */
  function AttackSpan(level: int): int
  {
    level * 5 + 10
  }

  /** `experienceYield || 25`. */
  function ExperienceGained(e: Enemy): int
  {
    OrDefault(e.experienceYield, DefaultExperienceYield)
  }

  /** `attackPower || 15`: the width of the enemy's damage draw. */
  function EnemyPower(e: Enemy): int
  {
    OrDefault(e.attackPower, DefaultAttackPower)
  }

  /** The guard of `processPlayerAttack`. */
  predicate PlayerMayAttack(c: CombatState)
  {
    c.playerTurn && c.enemy.Some?
  }

  /** The world list without the enemies whose id is `id`, in order. */
  function RemoveEnemy(enemies: seq<Enemy>, id: int): (r: seq<Enemy>)
    ensures forall k :: 0 <= k < |r| ==> r[k].id != id && r[k] in enemies
    ensures forall k :: 0 <= k < |enemies| && enemies[k].id != id ==> enemies[k] in r
    ensures (forall k :: 0 <= k < |enemies| ==> enemies[k].id != id) ==> r == enemies
  {
    if enemies == [] then []
    else (if enemies[0].id == id then [] else [enemies[0]]) + RemoveEnemy(enemies[1..], id)
  }

  /** Removal from a single enemy drops it iff its id matches. */
  lemma RemoveEnemySingle(e: Enemy, id: int)
    ensures RemoveEnemy([e], id) == if e.id == id then [] else [e]
  {
    assert [e][1..] == [];
  }

  /** Removal is an order-keeping filter: it distributes over concatenation,
      so the survivors keep their order and their multiplicity. */
  lemma {:induction false} RemoveEnemyDistributes(a: seq<Enemy>, b: seq<Enemy>, id: int)
    ensures RemoveEnemy(a + b, id) == RemoveEnemy(a, id) + RemoveEnemy(b, id)
  {
    if a == [] {
      assert a + b == b;
    } else {
      var ab := a + b;
      assert ab[0] == a[0];
      assert ab[1..] == a[1..] + b;
      RemoveEnemyDistributes(a[1..], b, id);
    }
  }

  /** `processPlayerAttack` with the draw `roll`: damage is `roll + 5`. A kill
      grants experience, at most one level (with a full heal), removes the
      world enemy and ends the fight; otherwise the enemy's turn begins and
      a counter-attack is scheduled over the pre-attack snapshot. */
  function PlayerAttack(p: Player, c: CombatState, enemies: seq<Enemy>, roll: int): (r: AttackResult)
    requires PlayerMayAttack(c) ==> IsFloorDraw(AttackSpan(p.level), roll)
    ensures !PlayerMayAttack(c) ==> r == AttackResult(p, c, enemies, None)
    // Only experience, level and health of the player change; level by at most one.
    ensures r.player == p.(experience := r.player.experience, level := r.player.level, health := r.player.health)
    ensures r.player.level == p.level || r.player.level == p.level + 1
    ensures r.player.level == p.level + 1
        <==> PlayerMayAttack(c) && c.enemy.value.health <= roll + MinDamage && r.player.experience >= p.level * ExperiencePerLevel
    ensures r.player.health == if r.player.level == p.level + 1 then p.maxHealth else p.health
    // Exactly one hit is logged, with damage in [5, level * 5 + 15).
    ensures PlayerMayAttack(c) ==>
      && |r.combat.log| > |c.log| && r.combat.log[..|c.log|] == c.log
      && r.combat.log[|c.log|] == PlayerHit(c.enemy.value.kind, roll + MinDamage)
    ensures PlayerMayAttack(c) && 0 < AttackSpan(p.level) ==>
      MinDamage <= r.combat.log[|c.log|].damage < AttackSpan(p.level) + MinDamage
    // A kill: experience, the world enemy removed by id, the fight over.
    ensures PlayerMayAttack(c) && c.enemy.value.health <= roll + MinDamage ==>
      var e := c.enemy.value;
      && r.player.experience == p.experience + ExperienceGained(e)
      && r.enemies == RemoveEnemy(enemies, e.id)
      && r.combat == CombatState(false, None, true, c.log + [PlayerHit(e.kind, roll + MinDamage), EnemyDefeated(e.kind, ExperienceGained(e))])
      && r.counter.None?
    // A survivor: only its combat copy is hurt, the turn passes, a counter-attack waits.
    ensures PlayerMayAttack(c) && c.enemy.value.health > roll + MinDamage ==>
      var e := c.enemy.value;
      && r.player == p && r.enemies == enemies
      && r.combat == c.(enemy := Some(e.(health := e.health - (roll + MinDamage))), playerTurn := false, log := c.log + [PlayerHit(e.kind, roll + MinDamage)])
      && 0 < r.combat.enemy.value.health
      && (0 < AttackSpan(p.level) ==> r.combat.enemy.value.health <= e.health - MinDamage)
      && r.counter == Some(Snapshot(p, e))
    ensures Consistent(c) ==> Consistent(r.combat)
  {
    if !PlayerMayAttack(c) then AttackResult(p, c, enemies, None)
    else
      var e := c.enemy.value;
      var damage := roll + MinDamage;
      var health := Max(0, e.health - damage);
      var log := c.log + [PlayerHit(e.kind, damage)];
      if health <= 0 then
        var gained := ExperienceGained(e);
        var experience := p.experience + gained;
        var levelUp := experience >= p.level * ExperiencePerLevel;
        AttackResult(
          p.(experience := experience,
             level := if levelUp then p.level + 1 else p.level,
             health := if levelUp then p.maxHealth else p.health),
          CombatState(false, None, true, log + [EnemyDefeated(e.kind, gained)]),
          RemoveEnemy(enemies, e.id),
          None)
      else
        AttackResult(p, c.(enemy := Some(e.(health := health)), playerTurn := false, log := log), enemies, Some(Snapshot(p, e)))
  }

  /** `handleEnemyAttack` with the draw `roll`, run over the snapshots the
      callback captured (`target`, `attacker`) and the current player and
      combat state. Damage is `roll + 5`, taken from the captured health. */
  function EnemyAttack(current: Player, c: CombatState, target: Option<Player>, attacker: Option<Enemy>, roll: int): (r: Exchange)
    requires target.Some? && attacker.Some? ==> IsFloorDraw(EnemyPower(attacker.value), roll)
    ensures target.None? || attacker.None? ==>
      r == Exchange(current, c.(playerTurn := true, log := c.log + [AttackAborted]))
    ensures target.Some? && attacker.Some? ==>
      var t, a, damage := target.value, attacker.value, roll + MinDamage;
      && r.player == current.(health := Max(0, t.health - damage))
      && (0 < EnemyPower(a) ==>
            && MinDamage <= damage < EnemyPower(a) + MinDamage
            && t.health - (EnemyPower(a) + MinDamage) < r.player.health <= Max(0, t.health - MinDamage))
      && (r.player.health == 0 ==>
            r.combat == c.(inCombat := false, enemy := None, playerTurn := true, log := c.log + [EnemyHit(a.kind, damage), PlayerDefeated]))
      && (r.player.health > 0 ==>
            r.combat == c.(playerTurn := true, log := c.log + [EnemyHit(a.kind, damage), PlayersTurn]))
    // The turn always comes back to the player, and a hit never starts a fight.
    ensures r.combat.playerTurn
    ensures r.combat.inCombat ==> c.inCombat
    ensures Consistent(c) ==> Consistent(r.combat)
    ensures target.Some? && attacker.Some? && 0 < EnemyPower(attacker.value) && 0 <= target.value.health <= current.maxHealth ==>
      0 <= r.player.health <= current.maxHealth
  {
    if target.None? || attacker.None? then
      Exchange(current, c.(playerTurn := true, log := c.log + [AttackAborted]))
    else
      var t, a := target.value, attacker.value;
      var damage := roll + MinDamage;
      var health := Max(0, t.health - damage);
      var hit := EnemyHit(a.kind, damage);
      if health <= 0 then
        Exchange(current.(health := 0), c.(inCombat := false, enemy := None, playerTurn := true, log := c.log + [hit, PlayerDefeated]))
      else
        Exchange(current.(health := health), c.(playerTurn := true, log := c.log + [hit, PlayersTurn]))
  }
}
