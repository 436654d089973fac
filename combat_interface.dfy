/** The combat overlay: when its actions are available, the flee action and
    the enemy's free hit after a failed flee.
 */
module CombatInterface {
  import opened Entities
  import opened Geometry
  import opened Combat

  /** The overlay is shown only in combat with an enemy, and its Attack and
      Flee buttons are enabled only on the player's turn. */
  predicate ActionsEnabled(c: CombatState)
  {
    c.inCombat && c.enemy.Some? && c.playerTurn
  }

  /** The outcome of a flee attempt: the new combat state and the free hit it
      schedules, if any. */
  datatype FleeResult = FleeResult(combat: CombatState, pending: Option<Snapshot>)

  /** `handleFlee` with the draw `roll` of `Math.random()`: above one half the
      fight is dropped at once; otherwise the enemy's turn begins and a free
      hit is scheduled over the player and enemy of this moment. */
  function Flee(p: Player, c: CombatState, roll: real): (r: FleeResult)
    requires c.enemy.Some?
    requires 0.0 <= roll < 1.0
    ensures roll > 0.5 ==> r.combat == IdleCombat && r.pending.None?
    ensures roll <= 0.5 ==>
      && r.combat.inCombat == c.inCombat && r.combat.enemy == c.enemy && !r.combat.playerTurn
      && r.combat.log == c.log + [FleeFailed]
      && r.pending == Some(Snapshot(p, c.enemy.value))
    ensures Consistent(c) ==> Consistent(r.combat)
  {
    if roll > 0.5 then FleeResult(IdleCombat, None)
    else FleeResult(c.(playerTurn := false, log := c.log + [FleeFailed]), Some(Snapshot(p, c.enemy.value)))
  }

  /** The delayed free hit of a failed flee, with the draw `roll`: damage is
      `roll + 5` and comes off the CURRENT health, while the defeat test uses
      the health captured when the flee failed; a defeat drops the fight and
      clears the log. */
  function FleePenalty(current: Player, c: CombatState, s: Snapshot, roll: int): (r: Exchange)
    requires IsFloorDraw(EnemyPower(s.enemy), roll)
    ensures r.player == current.(health := Max(0, current.health - (roll + MinDamage)))
    ensures 0 < EnemyPower(s.enemy) ==>
      current.health - (EnemyPower(s.enemy) + MinDamage) < r.player.health <= Max(0, current.health - MinDamage)
    ensures s.player.health - (roll + MinDamage) <= 0 ==> r.combat == IdleCombat
    ensures s.player.health - (roll + MinDamage) > 0 ==>
      r.combat == c.(playerTurn := true, log := c.log + [FleePenaltyHit(s.enemy.kind, roll + MinDamage)])
    ensures r.combat.playerTurn
    ensures r.combat.inCombat ==> c.inCombat
    ensures Consistent(c) ==> Consistent(r.combat)
  {
    var damage := roll + MinDamage;
    var player := current.(health := Max(0, current.health - damage));
    var hit := c.(playerTurn := true, log := c.log + [FleePenaltyHit(s.enemy.kind, damage)]);
    Exchange(player, if s.player.health - damage <= 0 then IdleCombat else hit)
  }
}
