/** One movement step of the player (`updatePlayerMovement`): held keys become a
    delta, each axis is tested on its own against every obstacle, a blocked axis
    is rolled back, and the result is clamped to the canvas.
 */
module Movement {
  import opened Entities
  import opened Geometry

  /** The held-key map: lower-cased key name to whether it is down. */
  type KeyMap = map<string, bool>

  predicate Held(keys: KeyMap, k: string)
  {
    k in keys && keys[k]
  }

  /** Whether either key bound to `d` (an arrow or its WASD letter) is held. */
  predicate DirectionHeld(keys: KeyMap, d: Direction)
  {
    match d
    case Up => Held(keys, "arrowup") || Held(keys, "w")
    case Down => Held(keys, "arrowdown") || Held(keys, "s")
    case Left => Held(keys, "arrowleft") || Held(keys, "a")
    case Right => Held(keys, "arrowright") || Held(keys, "d")
  }

  /** The contribution of one direction to the speed along its axis. */
  function Push(keys: KeyMap, d: Direction): int
  {
    if DirectionHeld(keys, d) then Speed else 0
  }

  /** Horizontal delta: right adds the speed, left subtracts it. */
  function DeltaX(keys: KeyMap): int
  {
    Push(keys, Right) - Push(keys, Left)
  }

  /** Vertical delta: down adds the speed, up subtracts it. */
  function DeltaY(keys: KeyMap): int
  {
    Push(keys, Down) - Push(keys, Up)
  }

  /** The order in which the keys are checked; a later held key overwrites the facing. */
  const KeyCheckOrder: seq<Direction> := [Up, Down, Left, Right]

  /** The facing left behind by checking `order` in sequence, starting from `d`. */
  function LastHeld(keys: KeyMap, order: seq<Direction>, d: Direction): Direction
  {
    if order == [] then d
    else LastHeld(keys, order[1..], if DirectionHeld(keys, order[0]) then order[0] else d)
  }

  /** Checking the four directions in key-check order: the last held one wins. */
  lemma FacingInCheckOrder(keys: KeyMap, d: Direction)
    ensures LastHeld(keys, KeyCheckOrder, d)
         == if DirectionHeld(keys, Right) then Right
            else if DirectionHeld(keys, Left) then Left
            else if DirectionHeld(keys, Down) then Down
            else if DirectionHeld(keys, Up) then Up
            else d
  {
    var d1 := if DirectionHeld(keys, Up) then Up else d;
    var d2 := if DirectionHeld(keys, Down) then Down else d1;
    var d3 := if DirectionHeld(keys, Left) then Left else d2;
    var d4 := if DirectionHeld(keys, Right) then Right else d3;
    assert KeyCheckOrder[1..] == [Down, Left, Right];
    assert [Down, Left, Right][1..] == [Left, Right];
    assert [Left, Right][1..] == [Right];
    assert [Right][1..] == [];
    calc {
      LastHeld(keys, KeyCheckOrder, d);
      LastHeld(keys, [Down, Left, Right], d1);
      LastHeld(keys, [Left, Right], d2);
      LastHeld(keys, [Right], d3);
      LastHeld(keys, [], d4);
    }
  }

  /** The player's box at (px, py) strictly overlaps obstacle `o`. */
  predicate Blocks(o: Obstacle, px: int, py: int, size: int)
  {
    Overlaps(px, py, size, size, o.x, o.y, o.width, o.height)
  }

  /** Some obstacle of the list strictly overlaps the player's box at (px, py). */
  predicate HitsObstacle(obstacles: seq<Obstacle>, px: int, py: int, size: int)
  {
    exists i :: 0 <= i < |obstacles| && Blocks(obstacles[i], px, py, size)
  }

  /** The player after one step: the reference the method below is proved against.
      The X test uses the unmoved y and the Y test the unmoved x. */
  function MovedPlayer(keys: KeyMap, p: Player, obstacles: seq<Obstacle>, size: int, canvasWidth: int, canvasHeight: int): (q: Player)
    ensures size <= canvasWidth ==> 0 <= q.x <= canvasWidth - size
    ensures size <= canvasHeight ==> 0 <= q.y <= canvasHeight - size
    ensures q == p.(x := q.x, y := q.y, direction := q.direction, isMoving := q.isMoving)
  {
    var dx, dy := DeltaX(keys), DeltaY(keys);
    var nx := if HitsObstacle(obstacles, p.x + dx, p.y, size) then p.x else p.x + dx;
    var ny := if HitsObstacle(obstacles, p.x, p.y + dy, size) then p.y else p.y + dy;
    p.(x := Clamp(nx, canvasWidth - size), y := Clamp(ny, canvasHeight - size),
       direction := LastHeld(keys, KeyCheckOrder, p.direction),
       isMoving := dx != 0 || dy != 0)
  }

  /** `updatePlayerMovement`: the delta from the keys, one pass over the
      obstacles flipping a flag per blocked axis, roll-back, then the clamp. */
  method UpdatePlayerMovement(keys: KeyMap, p: Player, obstacles: seq<Obstacle>, size: int, canvasWidth: int, canvasHeight: int)
    returns (q: Player)
    ensures q == MovedPlayer(keys, p, obstacles, size, canvasWidth, canvasHeight)
  {
    var x, y, direction := p.x, p.y, p.direction;
    var dx, dy := 0, 0;
    if Held(keys, "arrowup") || Held(keys, "w") {
      dy := dy - Speed;
      direction := Up;
    }
    if Held(keys, "arrowdown") || Held(keys, "s") {
      dy := dy + Speed;
      direction := Down;
    }
    if Held(keys, "arrowleft") || Held(keys, "a") {
      dx := dx - Speed;
      direction := Left;
    }
    if Held(keys, "arrowright") || Held(keys, "d") {
      dx := dx + Speed;
      direction := Right;
    }
    var isMoving := dx != 0 || dy != 0;

    var newX, newY := x + dx, y + dy;
    var canMoveX, canMoveY := true, true;
    for i := 0 to |obstacles|
      invariant canMoveX <==> forall k :: 0 <= k < i ==> !Blocks(obstacles[k], newX, y, size)
      invariant canMoveY <==> forall k :: 0 <= k < i ==> !Blocks(obstacles[k], x, newY, size)
    {
      var o := obstacles[i];
      if newX < o.x + o.width && newX + size > o.x && y < o.y + o.height && y + size > o.y {
        canMoveX := false;
      }
      if x < o.x + o.width && x + size > o.x && newY < o.y + o.height && newY + size > o.y {
        canMoveY := false;
      }
    }
    if !canMoveX {
      newX := x;
    }
    if !canMoveY {
      newY := y;
    }
    newX := Max(0, Min(canvasWidth - size, newX));
    newY := Max(0, Min(canvasHeight - size, newY));
    q := p.(x := newX, y := newY, direction := direction, isMoving := isMoving);
    FacingInCheckOrder(keys, p.direction);
  }

  /** Per-axis rejection: an axis whose moved box (with the other coordinate
      unmoved) hits an obstacle keeps its old coordinate; an axis with no hit
      moves by exactly its delta. Either way the clamp comes last. */
  lemma PerAxisRejection(keys: KeyMap, p: Player, obstacles: seq<Obstacle>, size: int, canvasWidth: int, canvasHeight: int)
    ensures var q := MovedPlayer(keys, p, obstacles, size, canvasWidth, canvasHeight);
      && (HitsObstacle(obstacles, p.x + DeltaX(keys), p.y, size) ==> q.x == Clamp(p.x, canvasWidth - size))
      && (!HitsObstacle(obstacles, p.x + DeltaX(keys), p.y, size) ==> q.x == Clamp(p.x + DeltaX(keys), canvasWidth - size))
      && (HitsObstacle(obstacles, p.x, p.y + DeltaY(keys), size) ==> q.y == Clamp(p.y, canvasHeight - size))
      && (!HitsObstacle(obstacles, p.x, p.y + DeltaY(keys), size) ==> q.y == Clamp(p.y + DeltaY(keys), canvasHeight - size))
  {
  }

  /** The player moves iff some axis has an unpaired key: opposite keys cancel. */
  lemma MovingIffUnpairedKey(keys: KeyMap, p: Player, obstacles: seq<Obstacle>, size: int, canvasWidth: int, canvasHeight: int)
    ensures MovedPlayer(keys, p, obstacles, size, canvasWidth, canvasHeight).isMoving
        <==> (DirectionHeld(keys, Left) != DirectionHeld(keys, Right) || DirectionHeld(keys, Up) != DirectionHeld(keys, Down))
  {
  }

  /** Checking directions in sequence leaves the start value when none is held,
      and otherwise the last held direction of the sequence. */
  lemma {:induction false} LastHeldIsLastHeldKey(keys: KeyMap, order: seq<Direction>, d: Direction)
    ensures (forall i :: 0 <= i < |order| ==> !DirectionHeld(keys, order[i])) ==> LastHeld(keys, order, d) == d
    ensures (exists i :: 0 <= i < |order| && DirectionHeld(keys, order[i])) ==>
      exists i :: 0 <= i < |order| && LastHeld(keys, order, d) == order[i] && DirectionHeld(keys, order[i])
                  && forall j :: i < j < |order| ==> !DirectionHeld(keys, order[j])
  {
    if order != [] {
      var d' := if DirectionHeld(keys, order[0]) then order[0] else d;
      var tail := order[1..];
      LastHeldIsLastHeldKey(keys, tail, d');
      assert LastHeld(keys, order, d) == LastHeld(keys, tail, d');
      if exists i :: 0 <= i < |tail| && DirectionHeld(keys, tail[i]) {
        var i :| 0 <= i < |tail| && LastHeld(keys, tail, d') == tail[i] && DirectionHeld(keys, tail[i])
                 && forall j :: i < j < |tail| ==> !DirectionHeld(keys, tail[j]);
        assert order[i + 1] == tail[i];
        assert forall j :: i + 1 < j < |order| ==> order[j] == tail[j - 1];
      } else {
        assert forall j :: 0 < j < |order| ==> order[j] == tail[j - 1];
        if DirectionHeld(keys, order[0]) {
          assert LastHeld(keys, order, d) == order[0];
        }
      }
    }
  }

  /** The facing after a step is the last held key in the order up, down,
      left, right, and stays as it was when no movement key is held. */
  lemma FacingFromKeys(keys: KeyMap, p: Player, obstacles: seq<Obstacle>, size: int, canvasWidth: int, canvasHeight: int)
    ensures var facing := MovedPlayer(keys, p, obstacles, size, canvasWidth, canvasHeight).direction;
      && (DirectionHeld(keys, Right) ==> facing == Right)
      && (!DirectionHeld(keys, Right) && DirectionHeld(keys, Left) ==> facing == Left)
      && (!DirectionHeld(keys, Right) && !DirectionHeld(keys, Left) && DirectionHeld(keys, Down) ==> facing == Down)
      && (!DirectionHeld(keys, Right) && !DirectionHeld(keys, Left) && !DirectionHeld(keys, Down) && DirectionHeld(keys, Up) ==> facing == Up)
      && (!DirectionHeld(keys, Right) && !DirectionHeld(keys, Left) && !DirectionHeld(keys, Down) && !DirectionHeld(keys, Up) ==> facing == p.direction)
  {
    FacingInCheckOrder(keys, p.direction);
  }

  /** The axes are tested separately, so a diagonal step towards a corner can
      end inside an obstacle: from (78, 78) with down and right held, neither
      single-axis box touches the tree at (100, 100), yet the box at (81, 81) does. */
  lemma DiagonalStepCanEndInsideObstacle()
    ensures var keys := map["s" := true, "d" := true];
            var q := MovedPlayer(keys, InitialPlayer.(x := 78, y := 78), [ForestObstacles[0]], PlayerSize, CanvasWidth, CanvasHeight);
            q.x == 81 && q.y == 81 && Blocks(ForestObstacles[0], q.x, q.y, PlayerSize)
  {
    var keys := map["s" := true, "d" := true];
    var obstacles := [ForestObstacles[0]];
    assert DeltaX(keys) == 3 && DeltaY(keys) == 3;
    assert !HitsObstacle(obstacles, 81, 78, PlayerSize);
    assert !HitsObstacle(obstacles, 78, 81, PlayerSize);
  }
}
