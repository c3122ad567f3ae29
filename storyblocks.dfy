/*
 * Story contributions and the shear-building pattern of the global matrices
 * (src/core/analysis/matrixAssembly.ts, addDirectionalContribution and
 * addStoryBlock).
 *
 * Each story gathers the stiffness and damping of its elements into ten
 * sums about the story's mass center. A story's 3x3 block couples its floor
 * to the floor below (story 0 to the ground): it is added on the diagonal
 * blocks of both floors and subtracted on the two off-diagonal blocks
 * between them. Degrees of freedom are numbered 3s (DX), 3s+1 (DY) and
 * 3s+2 (RZ) for story s.
 */
module StoryBlocks {
  import opened Building

  /** `StoryContribution`: five stiffness and five damping sums. */
  datatype Contribution = Contribution(
    kxx: real, kyy: real, kxr: real, kyr: real, krr: real,
    cxx: real, cyy: real, cxr: real, cyr: real, crr: real)

  const NoContribution := Contribution(0.0, 0.0, 0.0, 0.0, 0.0, 0.0, 0.0, 0.0, 0.0, 0.0)

  /** Which five sums a value goes to: stiffness ("k") or damping ("c"). */
  datatype Kind = Stiffness | Damping

  /** The five entries [xx, yy, xr, yr, rr] of a story's local 3x3 block. */
  datatype Block = Block(xx: real, yy: real, xr: real, yr: real, rr: real)

  function BlockOf(t: Contribution, kind: Kind): Block
  {
    if kind == Stiffness then Block(t.kxx, t.kyy, t.kxr, t.kyr, t.krr)
    else Block(t.cxx, t.cyy, t.cxr, t.cyr, t.crr)
  }

  /**
   * `addDirectionalContribution`: a spring of `value` acting along `direction`
   * at `position`, about the story's mass center `center`. A zero value adds nothing.
   */
  function Directional(t: Contribution, direction: Direction, value: real, position: Point, center: Point, kind: Kind): Contribution
  {
    if value == 0.0 then t
    else
      var yOffset := position.y - center.y;
      var xOffset := position.x - center.x;
      if direction == X then
        if kind == Stiffness then
          t.(kxx := t.kxx + value, kxr := t.kxr + -value * yOffset, krr := t.krr + value * yOffset * yOffset)
        else
          t.(cxx := t.cxx + value, cxr := t.cxr + -value * yOffset, crr := t.crr + value * yOffset * yOffset)
      else
        if kind == Stiffness then
          t.(kyy := t.kyy + value, kyr := t.kyr + value * xOffset, krr := t.krr + value * xOffset * xOffset)
        else
          t.(cyy := t.cyy + value, cyr := t.cyr + value * xOffset, crr := t.crr + value * xOffset * xOffset)
  }

  /**
   * The quadratic form of a local block, u^T L u with L = [[xx,0,xr],[0,yy,yr],[xr,yr,rr]]
   * and u = (ux, uy, rz).
   */
  function Energy(b: Block, ux: real, uy: real, rz: real): real
  {
    b.xx * ux * ux + b.yy * uy * uy + 2.0 * b.xr * ux * rz + 2.0 * b.yr * uy * rz + b.rr * rz * rz
  }

  /**
   * How far `position` moves along `direction` when the floor translates by
   * (ux, uy) and turns by rz about `center`.
   */
  function Along(direction: Direction, position: Point, center: Point, ux: real, uy: real, rz: real): real
  {
    if direction == X then ux - (position.y - center.y) * rz else uy + (position.x - center.x) * rz
  }

  /** The quadratic form grows by v * (ux - dy * rz)^2 when an X spring is added. */
  lemma XSpringEnergy(b: Block, v: real, dy: real, ux: real, uy: real, rz: real)
    ensures Energy(b.(xx := b.xx + v, xr := b.xr + -v * dy, rr := b.rr + v * dy * dy), ux, uy, rz)
      == Energy(b, ux, uy, rz) + v * ((ux - dy * rz) * (ux - dy * rz))
  {
    var e := ux - dy * rz;
    assert e * e == ux * ux - 2.0 * dy * ux * rz + dy * dy * rz * rz;
    assert v * (e * e) == v * ux * ux + 2.0 * (-v * dy) * ux * rz + v * dy * dy * rz * rz;
  }

  /** The quadratic form grows by v * (uy + dx * rz)^2 when a Y spring is added. */
  lemma YSpringEnergy(b: Block, v: real, dx: real, ux: real, uy: real, rz: real)
    ensures Energy(b.(yy := b.yy + v, yr := b.yr + v * dx, rr := b.rr + v * dx * dx), ux, uy, rz)
      == Energy(b, ux, uy, rz) + v * ((uy + dx * rz) * (uy + dx * rz))
  {
    var e := uy + dx * rz;
    assert e * e == uy * uy + 2.0 * dx * uy * rz + dx * dx * rz * rz;
    assert v * (e * e) == v * uy * uy + 2.0 * (v * dx) * uy * rz + v * dx * dx * rz * rz;
  }

  /**
   * A directional contribution is a spring at its position: it adds
   * value * (movement along its direction)^2 to the quadratic form of its
   * kind's block and leaves the other kind's block as it was.
   */
  lemma DirectionalEnergy(t: Contribution, direction: Direction, value: real, position: Point, center: Point,
                          kind: Kind, ux: real, uy: real, rz: real)
    ensures var a := Along(direction, position, center, ux, uy, rz);
      Energy(BlockOf(Directional(t, direction, value, position, center, kind), kind), ux, uy, rz)
        == Energy(BlockOf(t, kind), ux, uy, rz) + value * (a * a)
    ensures BlockOf(Directional(t, direction, value, position, center, kind), OtherKind(kind)) == BlockOf(t, OtherKind(kind))
  {
    var b := BlockOf(t, kind);
    var dy := position.y - center.y;
    var dx := position.x - center.x;
    if value == 0.0 {
    } else if direction == X {
      assert BlockOf(Directional(t, direction, value, position, center, kind), kind)
        == b.(xx := b.xx + value, xr := b.xr + -value * dy, rr := b.rr + value * dy * dy);
      XSpringEnergy(b, value, dy, ux, uy, rz);
    } else {
      assert BlockOf(Directional(t, direction, value, position, center, kind), kind)
        == b.(yy := b.yy + value, yr := b.yr + value * dx, rr := b.rr + value * dx * dx);
      YSpringEnergy(b, value, dx, ux, uy, rz);
    }
  }

  function OtherKind(kind: Kind): Kind
  {
    if kind == Stiffness then Damping else Stiffness
  }

  /** A spring of non-negative value never lowers the quadratic form of its block. */
  lemma NonNegativeSpring(t: Contribution, direction: Direction, value: real, position: Point, center: Point,
                          kind: Kind, ux: real, uy: real, rz: real)
    requires value >= 0.0
    ensures Energy(BlockOf(Directional(t, direction, value, position, center, kind), kind), ux, uy, rz)
      >= Energy(BlockOf(t, kind), ux, uy, rz)
  {
    DirectionalEnergy(t, direction, value, position, center, kind, ux, uy, rz);
    var a := Along(direction, position, center, ux, uy, rz);
    assert value * (a * a) >= 0.0;
  }

  // ---- the global matrix --------------------------------------------------------------

  /** Entry (i, j) of the local block [[xx,0,xr],[0,yy,yr],[xr,yr,rr]]. */
  function LocalAt(b: Block, i: int, j: int): real
  {
    if i == 0 && j == 0 then b.xx
    else if i == 1 && j == 1 then b.yy
    else if (i == 0 && j == 2) || (i == 2 && j == 0) then b.xr
    else if (i == 1 && j == 2) || (i == 2 && j == 1) then b.yr
    else if i == 2 && j == 2 then b.rr
    else 0.0
  }

  /** Degree of freedom `axis` (0 DX, 1 DY, 2 RZ) of story `s`. */
  function Dof(s: nat, axis: nat): nat
  {
    3 * s + axis
  }

  /** What `addAt(a, b, sign)` adds at (r, c): sign times the local block on block (a, b). */
  function Placed(a: nat, b: nat, sign: real, blk: Block, r: int, c: int): real
  {
    if 3 * a <= r < 3 * a + 3 && 3 * b <= c < 3 * b + 3 then sign * LocalAt(blk, r - 3 * a, c - 3 * b) else 0.0
  }

  /** What `addStoryBlock` adds at (r, c) for story `s`. */
  function StoryDelta(s: nat, blk: Block, r: int, c: int): real
  {
    if s == 0 then Placed(0, 0, 1.0, blk, r, c)
    else
      Placed(s, s, 1.0, blk, r, c) + Placed(s - 1, s - 1, 1.0, blk, r, c)
      + Placed(s, s - 1, -1.0, blk, r, c) + Placed(s - 1, s, -1.0, blk, r, c)
  }

  /** `addAt`: adds sign times the local block onto block (a, b) of `g`. */
  method AddAt(g: array2<real>, a: nat, b: nat, sign: real, blk: Block)
    requires 3 * a + 3 <= g.Length0 && 3 * b + 3 <= g.Length1
    modifies g
    ensures forall r, c :: 0 <= r < g.Length0 && 0 <= c < g.Length1 ==> g[r, c] == old(g[r, c]) + Placed(a, b, sign, blk, r, c)
  {
    for i := 0 to 3
      invariant forall r, c :: 0 <= r < g.Length0 && 0 <= c < g.Length1 ==>
        g[r, c] == old(g[r, c]) + (if r < 3 * a + i then Placed(a, b, sign, blk, r, c) else 0.0)
    {
      for j := 0 to 3
        invariant forall r, c :: 0 <= r < g.Length0 && 0 <= c < g.Length1 ==>
          g[r, c] == old(g[r, c])
            + (if r < 3 * a + i || (r == 3 * a + i && c < 3 * b + j) then Placed(a, b, sign, blk, r, c) else 0.0)
      {
        g[3 * a + i, 3 * b + j] := g[3 * a + i, 3 * b + j] + sign * LocalAt(blk, i, j);
      }
    }
  }

  /**
   * `addStoryBlock`: story 0 adds its block on (0, 0); story s > 0 adds it on
   * (s, s) and (s-1, s-1) and subtracts it on (s, s-1) and (s-1, s).
   */
  method AddStoryBlock(g: array2<real>, s: nat, blk: Block, storyCount: nat)
    requires g.Length0 == 3 * storyCount && g.Length1 == 3 * storyCount && s < storyCount
    modifies g
    ensures forall r, c :: 0 <= r < g.Length0 && 0 <= c < g.Length1 ==> g[r, c] == old(g[r, c]) + StoryDelta(s, blk, r, c)
  {
    if s == 0 {
      AddAt(g, 0, 0, 1.0, blk);
      return;
    }
    var lower := s - 1;
    AddAt(g, s, s, 1.0, blk);
    AddAt(g, lower, lower, 1.0, blk);
    AddAt(g, s, lower, -1.0, blk);
    AddAt(g, lower, s, -1.0, blk);
  }

  /** The sum of the first `i` stories' deltas at (r, c): the matrix after `i` calls of `addStoryBlock` on zero. */
  function Accumulated(blocks: seq<Block>, i: nat, r: int, c: int): real
    requires i <= |blocks|
  {
    if i == 0 then 0.0 else Accumulated(blocks, i - 1, r, c) + StoryDelta(i - 1, blocks[i - 1], r, c)
  }

  /**
   * The shear-building matrix, block (a, b), entry (i, j): a floor's diagonal
   * block holds its own story and the story above it; the block between two
   * neighbouring floors is minus the upper story's block; all other blocks are zero.
   */
  function ShearAt(blocks: seq<Block>, a: nat, i: nat, b: nat, j: nat): real
    requires a < |blocks| && b < |blocks|
  {
    if a == b then LocalAt(blocks[a], i, j) + (if a + 1 < |blocks| then LocalAt(blocks[a + 1], i, j) else 0.0)
    else if a == b + 1 then -LocalAt(blocks[a], i, j)
    else if b == a + 1 then -LocalAt(blocks[b], i, j)
    else 0.0
  }

  /** The entry of the shear-building matrix at row r and column c. */
  function ShearMatrix(blocks: seq<Block>, r: nat, c: nat): real
    requires r < 3 * |blocks| && c < 3 * |blocks|
  {
    ShearAt(blocks, r / 3, r % 3, c / 3, c % 3)
  }

  /** The shear-building pattern with only the stories below `k` present. */
  function ShearUpTo(blocks: seq<Block>, k: nat, a: nat, i: nat, b: nat, j: nat): real
    requires k <= |blocks| && a < |blocks| && b < |blocks|
  {
    if a == b then
      (if a < k then LocalAt(blocks[a], i, j) else 0.0) + (if a + 1 < k then LocalAt(blocks[a + 1], i, j) else 0.0)
    else if a == b + 1 then (if a < k then -LocalAt(blocks[a], i, j) else 0.0)
    else if b == a + 1 then (if b < k then -LocalAt(blocks[b], i, j) else 0.0)
    else 0.0
  }

  /** `addAt(a', b', sign)` touches entry (Dof(a, i), Dof(b, j)) exactly when (a', b') is (a, b). */
  lemma PlacedAt(a2: nat, b2: nat, sign: real, blk: Block, a: nat, i: nat, b: nat, j: nat)
    requires i < 3 && j < 3
    ensures Placed(a2, b2, sign, blk, Dof(a, i), Dof(b, j)) == if a2 == a && b2 == b then sign * LocalAt(blk, i, j) else 0.0
  {
  }

  /** Story s's delta at block (a, b): the four (or, for story 0, one) blocks it is added on. */
  lemma StoryDeltaAt(s: nat, blk: Block, a: nat, i: nat, b: nat, j: nat)
    requires i < 3 && j < 3
    ensures StoryDelta(s, blk, Dof(a, i), Dof(b, j)) ==
      if s == 0 then (if a == 0 && b == 0 then LocalAt(blk, i, j) else 0.0)
      else if a == b && (a == s || a + 1 == s) then LocalAt(blk, i, j)
      else if (a == s && b + 1 == s) || (b == s && a + 1 == s) then -LocalAt(blk, i, j)
      else 0.0
  {
    PlacedAt(0, 0, 1.0, blk, a, i, b, j);
    if s > 0 {
      PlacedAt(s, s, 1.0, blk, a, i, b, j);
      PlacedAt(s - 1, s - 1, 1.0, blk, a, i, b, j);
      PlacedAt(s, s - 1, -1.0, blk, a, i, b, j);
      PlacedAt(s - 1, s, -1.0, blk, a, i, b, j);
    }
  }

  lemma {:induction false} AccumulatedUpTo(blocks: seq<Block>, k: nat, a: nat, i: nat, b: nat, j: nat)
    requires k <= |blocks| && a < |blocks| && b < |blocks| && i < 3 && j < 3
    ensures Accumulated(blocks, k, Dof(a, i), Dof(b, j)) == ShearUpTo(blocks, k, a, i, b, j)
  {
    if k > 0 {
      AccumulatedUpTo(blocks, k - 1, a, i, b, j);
      StoryDeltaAt(k - 1, blocks[k - 1], a, i, b, j);
    }
  }

  /** Adding every story's block onto a zero matrix gives the shear-building matrix. */
  lemma AccumulatedShear(blocks: seq<Block>, r: nat, c: nat)
    requires r < 3 * |blocks| && c < 3 * |blocks|
    ensures Accumulated(blocks, |blocks|, r, c) == ShearMatrix(blocks, r, c)
  {
    var a, i, b, j := r / 3, r % 3, c / 3, c % 3;
    assert Dof(a, i) == r && Dof(b, j) == c;
    AccumulatedUpTo(blocks, |blocks|, a, i, b, j);
  }

  /** The shear-building matrix is symmetric. */
  lemma ShearSymmetric(blocks: seq<Block>, r: nat, c: nat)
    requires r < 3 * |blocks| && c < 3 * |blocks|
    ensures ShearMatrix(blocks, r, c) == ShearMatrix(blocks, c, r)
  {
  }

  /** Floors two or more stories apart are not coupled. */
  lemma ShearBanded(blocks: seq<Block>, r: nat, c: nat)
    requires r < 3 * |blocks| && c < 3 * |blocks|
    requires r / 3 > c / 3 + 1 || c / 3 > r / 3 + 1
    ensures ShearMatrix(blocks, r, c) == 0.0
  {
  }
}
