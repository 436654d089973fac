/** The proximity scans: NPC interaction and enemy encounter are first-match
    scans over the list in order; item collection moves every item in range
    from the world to the end of the inventory.
 */
module Detection {
  import opened Entities
  import opened Geometry

  /** NPC interaction range: PLAYER_SIZE + (width || PLAYER_SIZE) / 2 + 10 (40 when
      the NPC has no width), passed doubled. */
  predicate NpcInRange(p: Player, n: Npc)
  {
    WithinRange(p.x, p.y, n.x, n.y, 2 * PlayerSize + OrDefault(n.width, PlayerSize) + 20)
  }

  /** Encounter range: PLAYER_SIZE + (width || PLAYER_SIZE) / 2 + 20 (50 when the
      enemy has no width), passed doubled. */
  predicate EnemyInRange(p: Player, e: Enemy)
  {
    WithinRange(p.x, p.y, e.x, e.y, 2 * PlayerSize + OrDefault(e.width, PlayerSize) + 40)
  }

  /** Collection range: PLAYER_SIZE / 2 + 10 (20), passed doubled. */
  predicate ItemInRange(p: Player, it: Item)
  {
    WithinRange(p.x, p.y, it.x, it.y, PlayerSize + 20)
  }

  // ---------------------------------------------------------------- NPCs

  /** The index of the first NPC in list order within interaction range. */
  function FirstNpcInRange(p: Player, npcs: seq<Npc>): (r: Option<nat>)
    ensures r.Some? ==> r.value < |npcs| && NpcInRange(p, npcs[r.value])
    ensures r.Some? ==> forall k :: 0 <= k < r.value ==> !NpcInRange(p, npcs[k])
    ensures r.None? <==> forall k :: 0 <= k < |npcs| ==> !NpcInRange(p, npcs[k])
  {
    if npcs == [] then None
    else if NpcInRange(p, npcs[0]) then Some(0)
    else match FirstNpcInRange(p, npcs[1..])
      case None => None
      case Some(i) => Some(i + 1)
  }

  /** The dialogue overlay opened on `n`. */
  function OpenDialogue(gs: GameState, n: Npc): GameState
  {
    gs.(showDialogue := true, currentDialogueNpcName := n.name, currentDialogue := n.dialogue)
  }

  /** The game state after an NPC interaction attempt at the player's position. */
  function NpcInteracted(p: Player, gs: GameState): GameState
  {
    match FirstNpcInRange(p, gs.npcs)
    case None => gs
    case Some(i) => OpenDialogue(gs, gs.npcs[i])
  }

  /** `handleNpcInteractionLogic`: scan the NPCs in order and open the dialogue
      of the first one in range, stopping there. */
  method HandleNpcInteraction(p: Player, gs: GameState) returns (fired: bool, gs': GameState)
    ensures fired <==> exists k :: 0 <= k < |gs.npcs| && NpcInRange(p, gs.npcs[k])
    ensures fired ==> exists k :: 0 <= k < |gs.npcs| && NpcInRange(p, gs.npcs[k])
                        && (forall j :: 0 <= j < k ==> !NpcInRange(p, gs.npcs[j]))
                        && gs' == OpenDialogue(gs, gs.npcs[k])
    ensures !fired ==> gs' == gs
    ensures gs' == NpcInteracted(p, gs)
  {
    for i := 0 to |gs.npcs|
      invariant forall k :: 0 <= k < i ==> !NpcInRange(p, gs.npcs[k])
    {
      var npc := gs.npcs[i];
      if NpcInRange(p, npc) {
        assert FirstNpcInRange(p, gs.npcs) == Some(i);
        return true, OpenDialogue(gs, npc);
      }
    }
    return false, gs;
  }

  // ---------------------------------------------------------------- Items

  /** The items of `items` within collection range, in list order. */
  function Collected(p: Player, items: seq<Item>): (r: seq<Item>)
    ensures |r| <= |items|
    ensures forall k :: 0 <= k < |r| ==> ItemInRange(p, r[k]) && r[k] in items
    ensures r == [] <==> forall k :: 0 <= k < |items| ==> !ItemInRange(p, items[k])
  {
    if items == [] then []
    else
      var last := items[|items| - 1];
      Collected(p, items[..|items| - 1]) + if ItemInRange(p, last) then [last] else []
  }

  /** The items of `items` out of collection range, in list order. */
  function Remaining(p: Player, items: seq<Item>): (r: seq<Item>)
    ensures |r| <= |items|
    ensures forall k :: 0 <= k < |r| ==> !ItemInRange(p, r[k]) && r[k] in items
  {
    if items == [] then []
    else
      var last := items[|items| - 1];
      Remaining(p, items[..|items| - 1]) + if ItemInRange(p, last) then [] else [last]
  }

  /** One more item at the end of the list is collected or left, on its own. */
  lemma FilterSnoc(p: Player, items: seq<Item>, it: Item)
    ensures Collected(p, items + [it]) == Collected(p, items) + if ItemInRange(p, it) then [it] else []
    ensures Remaining(p, items + [it]) == Remaining(p, items) + if ItemInRange(p, it) then [] else [it]
  {
    assert (items + [it])[..|items|] == items;
  }

  /** The player and the game state after a collection attempt: the inventory
      gains the collected items at its end; the world list is replaced only when
      something was collected. */
  function ItemsCollected(p: Player, gs: GameState): (Player, GameState)
  {
    var got := Collected(p, gs.items);
    (p.(inventory := p.inventory + got),
     if got != [] then gs.(items := Remaining(p, gs.items)) else gs)
  }

  /** `handleItemCollectionLogic`: filter the world items, appending each one in
      range to the inventory as it is met. */
  method HandleItemCollection(p: Player, gs: GameState) returns (collected: bool, p': Player, gs': GameState)
    ensures collected <==> Collected(p, gs.items) != []
    ensures p' == p.(inventory := p.inventory + Collected(p, gs.items))
    ensures collected ==> gs' == gs.(items := Remaining(p, gs.items))
    ensures !collected ==> p' == p && gs' == gs
    ensures (p', gs') == ItemsCollected(p, gs)
  {
    var got, remaining;
    got, remaining, collected := FilterItems(p, gs.items);
    p' := p.(inventory := p.inventory + got);
    gs' := if collected then gs.(items := remaining) else gs;
  }

  /** The filter pass of `handleItemCollectionLogic`: each item in range is
      taken, in order, and raises the flag; every other item is kept. */
  method FilterItems(p: Player, items: seq<Item>) returns (got: seq<Item>, remaining: seq<Item>, collected: bool)
    ensures got == Collected(p, items) && remaining == Remaining(p, items)
    ensures collected <==> got != []
  {
    got, remaining, collected := [], [], false;
    for i := 0 to |items|
      invariant got == Collected(p, items[..i])
      invariant remaining == Remaining(p, items[..i])
      invariant collected <==> got != []
    {
      var item := items[i];
      assert items[..i + 1] == items[..i] + [item];
      FilterSnoc(p, items[..i], item);
      if ItemInRange(p, item) {
        got := got + [item];
        collected := true;
      } else {
        remaining := remaining + [item];
      }
    }
    assert items[..|items|] == items;
  }

  /** Collection splits the world list: every item lands in exactly one of the
      two lists, so nothing is lost or duplicated. */
  lemma {:induction false} CollectionPartitions(p: Player, items: seq<Item>)
    ensures |Collected(p, items)| + |Remaining(p, items)| == |items|
    ensures multiset(Collected(p, items)) + multiset(Remaining(p, items)) == multiset(items)
  {
    if items != [] {
      var front := items[..|items| - 1];
      var last := items[|items| - 1];
      CollectionPartitions(p, front);
      assert items == front + [last];
    }
  }

  /** Collecting from a concatenation collects from each part in turn. */
  lemma {:induction false} CollectedDistributes(p: Player, a: seq<Item>, b: seq<Item>)
    ensures Collected(p, a + b) == Collected(p, a) + Collected(p, b)
  {
    if b == [] {
      assert a + b == a;
    } else {
      var front, last := b[..|b| - 1], b[|b| - 1];
      var ab := a + b;
      CollectedDistributes(p, a, front);
      assert ab[..|ab| - 1] == a + front;
      assert ab[|ab| - 1] == last;
      var tail := if ItemInRange(p, last) then [last] else [];
      assert Collected(p, ab) == Collected(p, a + front) + tail;
      assert Collected(p, b) == Collected(p, front) + tail;
    }
  }

  /** What a concatenation leaves is what each part leaves, in turn. */
  lemma {:induction false} RemainingDistributes(p: Player, a: seq<Item>, b: seq<Item>)
    ensures Remaining(p, a + b) == Remaining(p, a) + Remaining(p, b)
  {
    if b == [] {
      assert a + b == a;
    } else {
      var front, last := b[..|b| - 1], b[|b| - 1];
      var ab := a + b;
      RemainingDistributes(p, a, front);
      assert ab[..|ab| - 1] == a + front;
      assert ab[|ab| - 1] == last;
      var tail := if ItemInRange(p, last) then [] else [last];
      assert Remaining(p, ab) == Remaining(p, a + front) + tail;
      assert Remaining(p, b) == Remaining(p, front) + tail;
    }
  }

  /** With nothing in range the world list stays whole. */
  lemma {:induction false} NothingInRangeRemainsAll(p: Player, items: seq<Item>)
    requires forall k :: 0 <= k < |items| ==> !ItemInRange(p, items[k])
    ensures Remaining(p, items) == items
  {
    if items != [] {
      var front := items[..|items| - 1];
      NothingInRangeRemainsAll(p, front);
      assert items == front + [items[|items| - 1]];
    }
  }

  /** A second collection at the same position finds nothing and keeps the list. */
  lemma CollectAgainCollectsNothing(p: Player, items: seq<Item>)
    ensures Collected(p, Remaining(p, items)) == []
    ensures Remaining(p, Remaining(p, items)) == Remaining(p, items)
  {
    NothingInRangeRemainsAll(p, Remaining(p, items));
  }

  // ---------------------------------------------------------------- Enemies

  /** The index of the first enemy in list order within encounter range. */
  function FirstEnemyInRange(p: Player, enemies: seq<Enemy>): (r: Option<nat>)
    ensures r.Some? ==> r.value < |enemies| && EnemyInRange(p, enemies[r.value])
    ensures r.Some? ==> forall k :: 0 <= k < r.value ==> !EnemyInRange(p, enemies[k])
    ensures r.None? <==> forall k :: 0 <= k < |enemies| ==> !EnemyInRange(p, enemies[k])
  {
    if enemies == [] then None
    else if EnemyInRange(p, enemies[0]) then Some(0)
    else match FirstEnemyInRange(p, enemies[1..])
      case None => None
      case Some(i) => Some(i + 1)
  }

  /** A fresh fight against a copy of `e`: the player moves first. */
  function StartCombat(e: Enemy): CombatState
  {
    CombatState(true, Some(e), true, [Encountered(e.kind)])
  }

  /** The combat state after an encounter check; unchanged when no enemy is near. */
  function EncounterResult(p: Player, enemies: seq<Enemy>, c: CombatState): CombatState
  {
    match FirstEnemyInRange(p, enemies)
    case None => c
    case Some(i) => StartCombat(enemies[i])
  }

  /** `checkEnemyEncounterLogic`: scan the enemies in order and start combat with
      a copy of the first one in range. The world list is only read. */
  method CheckEnemyEncounter(p: Player, enemies: seq<Enemy>, c: CombatState) returns (fired: bool, c': CombatState)
    ensures fired <==> exists k :: 0 <= k < |enemies| && EnemyInRange(p, enemies[k])
    ensures fired ==> exists k :: 0 <= k < |enemies| && EnemyInRange(p, enemies[k])
                        && (forall j :: 0 <= j < k ==> !EnemyInRange(p, enemies[j]))
                        && c' == CombatState(true, Some(enemies[k]), true, [Encountered(enemies[k].kind)])
    ensures !fired ==> c' == c
    ensures c' == EncounterResult(p, enemies, c)
  {
    for i := 0 to |enemies|
      invariant forall k :: 0 <= k < i ==> !EnemyInRange(p, enemies[k])
    {
      var enemy := enemies[i];
      if EnemyInRange(p, enemy) {
        assert FirstEnemyInRange(p, enemies) == Some(i);
        return true, StartCombat(enemy);
      }
    }
    return false, c;
  }
}
