/**
 The brick field: a fixed 3 x 5 grid of bricks in row-major order, the open-rectangle
 test that decides whether the ball centre is inside a brick, and the scan that kills
 every alive brick the ball is inside.
 */
module Bricks {
  import opened Int32

  /** A brick; `status` is false once the ball has destroyed it. */
  datatype Brick = Brick(x: I32, y: I32, width: I32, height: I32, status: bool)

  const ROWS := 3
  const COLUMNS := 5
  const BRICK_WIDTH := 75
  const BRICK_HEIGHT := 20
  const PADDING := 10
  const OFFSET_TOP := 30
  const OFFSET_LEFT := 30
  const COUNT := ROWS * COLUMNS

  /** The brick built for row `r`, column `c`. */
  function GridBrick(r: nat, c: nat): Brick
    requires r < ROWS && c < COLUMNS
  {
    Brick(c * (BRICK_WIDTH + PADDING) + OFFSET_LEFT, r * (BRICK_HEIGHT + PADDING) + OFFSET_TOP,
          BRICK_WIDTH, BRICK_HEIGHT, true)
  }

  /** The brick at position `k` of the row-major grid. */
  function BrickAt(k: nat): Brick
    requires k < COUNT
  {
    GridBrick(k / COLUMNS, k % COLUMNS)
  }

  /** The whole grid as a value. */
  function Layout(): (bs: seq<Brick>)
    ensures |bs| == COUNT
  {
    seq(COUNT, k requires 0 <= k < COUNT => BrickAt(k))
  }

  /** `Bricks::new`: the grid built row by row, column by column. */
  method New() returns (bricks: seq<Brick>)
    ensures |bricks| == COUNT
    ensures forall k :: 0 <= k < COUNT ==> bricks[k] == BrickAt(k)
  {
    bricks := [];
    for r := 0 to ROWS
      invariant |bricks| == r * COLUMNS
      invariant forall k :: 0 <= k < |bricks| ==> bricks[k] == BrickAt(k)
    {
      for c := 0 to COLUMNS
        invariant |bricks| == r * COLUMNS + c
        invariant forall k :: 0 <= k < |bricks| ==> bricks[k] == BrickAt(k)
      {
        assert (r * COLUMNS + c) / COLUMNS == r && (r * COLUMNS + c) % COLUMNS == c;
        bricks := bricks + [GridBrick(r, c)];
      }
    }
  }

  /** Brick `r * 5 + c` sits at x = 85c + 30, y = 30r + 30, is 75 x 20 and alive. */
  lemma BrickAtPosition(r: nat, c: nat)
    requires r < ROWS && c < COLUMNS
    ensures r * COLUMNS + c < COUNT
    ensures BrickAt(r * COLUMNS + c) == Brick(85 * c + 30, 30 * r + 30, 75, 20, true)
  {
  }

  /** Two bricks have the same rectangle (their status may differ). */
  predicate SameRect(a: Brick, b: Brick) {
    a.x == b.x && a.y == b.y && a.width == b.width && a.height == b.height
  }

  /** The bricks have the grid's rectangles, in grid order. */
  predicate IsGrid(bs: seq<Brick>) {
    |bs| == COUNT && forall k :: 0 <= k < |bs| ==> SameRect(bs[k], BrickAt(k))
  }

  /** The point (x, y) lies strictly inside the brick's rectangle. */
  predicate Inside(b: Brick, x: I32, y: I32) {
    x > b.x && x < WrapAdd(b.x, b.width) && y > b.y && y < WrapAdd(b.y, b.height)
  }

  /** The ball centre (x, y) hits the brick: it is alive and the centre is inside it. */
  predicate Hit(b: Brick, x: I32, y: I32) {
    b.status && Inside(b, x, y)
  }

  /** The bricks after one scan: every brick hit by (x, y) is dead, all others unchanged. */
  function Collide(bs: seq<Brick>, x: I32, y: I32): (r: seq<Brick>)
    ensures |r| == |bs|
  {
    seq(|bs|, k requires 0 <= k < |bs| => if Hit(bs[k], x, y) then bs[k].(status := false) else bs[k])
  }

  /** The number of bricks among the first `n` that (x, y) hits. */
  function HitsIn(bs: seq<Brick>, x: I32, y: I32, n: nat): nat
    requires n <= |bs|
  {
    if n == 0 then 0 else HitsIn(bs, x, y, n - 1) + (if Hit(bs[n - 1], x, y) then 1 else 0)
  }

  function HitCount(bs: seq<Brick>, x: I32, y: I32): nat {
    HitsIn(bs, x, y, |bs|)
  }

  /** The number of alive bricks among the first `n`. */
  function AliveIn(bs: seq<Brick>, n: nat): nat
    requires n <= |bs|
  {
    if n == 0 then 0 else AliveIn(bs, n - 1) + (if bs[n - 1].status then 1 else 0)
  }

  function AliveCount(bs: seq<Brick>): nat {
    AliveIn(bs, |bs|)
  }

  /** A scan only kills: each brick keeps its rectangle and is alive afterwards exactly
      when it was alive and the centre was outside it. */
  lemma CollideKillsExactlyHits(bs: seq<Brick>, x: I32, y: I32, k: nat)
    requires k < |bs|
    ensures SameRect(Collide(bs, x, y)[k], bs[k])
    ensures Collide(bs, x, y)[k].status <==> bs[k].status && !Inside(bs[k], x, y)
  {
  }

  /** Every brick the scan hits was alive and is now dead, so the alive count falls by
      exactly the number of hits. */
  lemma {:induction false} CollideAccounting(bs: seq<Brick>, x: I32, y: I32, n: nat)
    requires n <= |bs|
    ensures AliveIn(Collide(bs, x, y), n) + HitsIn(bs, x, y, n) == AliveIn(bs, n)
  {
    if n > 0 {
      CollideAccounting(bs, x, y, n - 1);
    }
  }

  lemma {:induction false} AllAliveCount(bs: seq<Brick>, n: nat)
    requires n <= |bs|
    requires forall k :: 0 <= k < |bs| ==> bs[k].status
    ensures AliveIn(bs, n) == n
  {
    if n > 0 {
      AllAliveCount(bs, n - 1);
    }
  }

  /** No hits among the first `n` bricks exactly when none of them is hit. */
  lemma {:induction false} NoHitsIff(bs: seq<Brick>, x: I32, y: I32, n: nat)
    requires n <= |bs|
    ensures HitsIn(bs, x, y, n) == 0 <==> forall j :: 0 <= j < n ==> !Hit(bs[j], x, y)
  {
    if n > 0 {
      NoHitsIff(bs, x, y, n - 1);
    }
  }

  /** Distinct grid bricks have disjoint open rectangles: padding 10 separates them. */
  lemma GridRectsDisjoint(i: nat, j: nat, x: I32, y: I32)
    requires i < COUNT && j < COUNT && i != j
    ensures !(Inside(BrickAt(i), x, y) && Inside(BrickAt(j), x, y))
  {
  }

  /** On the grid a ball centre is inside at most one brick, so one scan kills at most
      one brick, although the scan never stops early. */
  lemma {:induction false} GridHitsAtMostOne(bs: seq<Brick>, x: I32, y: I32, n: nat)
    requires IsGrid(bs) && n <= |bs|
    ensures HitsIn(bs, x, y, n) <= 1
  {
    if n > 0 {
      GridHitsAtMostOne(bs, x, y, n - 1);
      if Hit(bs[n - 1], x, y) {
        forall j | 0 <= j < n - 1
          ensures !Hit(bs[j], x, y)
        {
          GridRectsDisjoint(j, n - 1, x, y);
        }
        NoHitsIff(bs, x, y, n - 1);
      }
    }
  }
}
