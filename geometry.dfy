/** The spatial helpers shared by movement and the proximity scans, and the
    shape of a random draw.
 */
module Geometry {

  /** JavaScript's `v || d` on a numeric field: an absent (0) field gives `d`. */
  function OrDefault(v: int, d: int): int
  {
    if v == 0 then d else v
  }

  function Max(a: int, b: int): int { if a >= b then a else b }

  function Min(a: int, b: int): int { if a <= b then a else b }

  /** `Math.max(0, Math.min(hi, v))`: pulls `v` into `[0, hi]` when `hi >= 0`,
      and to 0 when `hi < 0`. */
  function Clamp(v: int, hi: int): (r: int)
    ensures 0 <= r
    ensures 0 <= hi ==> r <= hi
    ensures 0 <= v <= hi ==> r == v
    ensures hi < 0 ==> r == 0
    ensures v < 0 ==> r == 0
    ensures 0 <= hi < v ==> r == hi
  {
    Max(0, Min(hi, v))
  }

  /** Strict axis-aligned overlap of the box at (x1, y1) of size w1 x h1 with the
      box at (x2, y2) of size w2 x h2: boxes that only touch do not overlap. */
  predicate Overlaps(x1: int, y1: int, w1: int, h1: int, x2: int, y2: int, w2: int, h2: int)
  {
    x1 < x2 + w2 && x1 + w1 > x2 && y1 < y2 + h2 && y1 + h1 > y2
  }

  function SquaredDistance(x1: int, y1: int, x2: int, y2: int): nat
  {
    (x1 - x2) * (x1 - x2) + (y1 - y2) * (y1 - y2)
  }

  /** The source's `Math.sqrt(dx*dx + dy*dy) < R`, where `twiceRange` is 2R.
      Doubling R keeps a range with a half (an odd width over 2) an integer, and
      comparing squares is exact because both sides are non-negative. */
  predicate WithinRange(x1: int, y1: int, x2: int, y2: int, twiceRange: int)
  {
    0 < twiceRange && 4 * SquaredDistance(x1, y1, x2, y2) < twiceRange * twiceRange
  }

  /** The values `Math.floor(Math.random() * n)` can take for an integer `n`:
      `[0, n)` when `n` is positive, and `[n, 0]` otherwise. */
  predicate IsFloorDraw(n: int, roll: int)
  {
    if 0 < n then 0 <= roll < n else n <= roll <= 0
  }
}
