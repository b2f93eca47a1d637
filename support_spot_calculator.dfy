// The support spots of a team: a grid of candidate positions in the
// opponents' half, each scored by how useful it would be for a supporting
// attacker, and the best of them remembered between updates.
module SupportSpots {
  import opened Geometry
  import opened Params
  import opened Optional

  /** A candidate position and its most recent score. */
  datatype SupportSpot = SupportSpot(pos: Vector2D, score: real)

  /** The distance from the controlling player at which a spot earns the full distance bonus. */
  const OptimalDistance: real := 200.0

  /**
   * The number of grid columns: `numX / 2 - 1`, or none when that is not
   * positive (for a negative `numX` the bound is negative whether the
   * halving truncates or floors).
   */
  function ColumnCount(numX: int): nat
  {
    if numX / 2 - 1 <= 0 then 0 else numX / 2 - 1
  }

  /** The number of grid rows: `numY`, or none when that is not positive. */
  function RowCount(numY: int): nat
  {
    if numY <= 0 then 0 else numY
  }

  /**
   * The geometry of the grid for a playing area: the spot region covers 90%
   * of the width and 80% of the height, cut into `numX` by `numY` slices.
   * A zero count makes the slice an infinite double; the grid then has no
   * column (`numX` = 0) or no row (`numY` = 0), so no spot ever uses that
   * slice, and the model records it as zero.
   */
  datatype Layout = Layout(left: real, right: real, top: real, sliceX: real, sliceY: real)

  function LayoutOf(numX: int, numY: int, area: Rect): Layout
  {
    var heightOfRegion := area.height * 0.8;
    var widthOfRegion := area.width * 0.9;
    var sliceX := if numX == 0 then 0.0 else widthOfRegion / numX as real;
    var sliceY := if numY == 0 then 0.0 else heightOfRegion / numY as real;
    Layout(area.left + (area.width - widthOfRegion) / 2.0 + sliceX / 2.0,
           area.right - (area.width - widthOfRegion) / 2.0 + sliceX / 2.0,
           area.top + (area.height - heightOfRegion) / 2.0 + sliceY / 2.0,
           sliceX, sliceY)
  }

  /** The spot in column `x` and row `y`: the blue team counts columns from the left edge, the red team from the right. */
  function SpotAt(l: Layout, color: TeamColor, x: int, y: int): SupportSpot
  {
    if color == Blue then SupportSpot(Vector2D(l.left + x as real * l.sliceX, l.top + y as real * l.sliceY), 0.0)
    else SupportSpot(Vector2D(l.right - x as real * l.sliceX, l.top + y as real * l.sliceY), 0.0)
  }

  /** One column of the grid, top to bottom. */
  function Column(l: Layout, color: TeamColor, x: int, numY: nat): seq<SupportSpot>
  {
    seq(numY, y => SpotAt(l, color, x, y))
  }

  /** The first `n` columns of the grid, column after column. */
  function Columns(l: Layout, color: TeamColor, n: nat, numY: nat): seq<SupportSpot>
  {
    if n == 0 then [] else Columns(l, color, n - 1, numY) + Column(l, color, n - 1, numY)
  }

  /** The whole grid built for a team of the given colour. */
  function Grid(numX: int, numY: int, area: Rect, color: TeamColor): seq<SupportSpot>
  {
    Columns(LayoutOf(numX, numY, area), color, ColumnCount(numX), RowCount(numY))
  }

  /** The bonus for a spot at `dist` from the controlling player: largest at the optimal distance, none at or beyond twice it. */
  function DistanceBonus(dist: real, weight: real): real
  {
    var temp := Abs(OptimalDistance - dist);
    if temp < OptimalDistance then weight * (OptimalDistance - temp) / OptimalDistance else 0.0
  }

  /**
   * The score of a spot: one, plus a bonus when a pass to it would be safe,
   * plus a bonus when a goal could be scored from it, plus, when the team
   * already has a supporting player, the distance bonus.
   */
  function SpotScore(pos: Vector2D, passSafe: Vector2D -> bool, canShoot: Vector2D -> bool,
                     hasSupporter: bool, controller: Vector2D, prm: Params, g: Geometry): real
  {
    1.0
    + (if passSafe(pos) then prm.spotPassSafeScore else 0.0)
    + (if canShoot(pos) then prm.spotCanScoreFromPositionScore else 0.0)
    + (if hasSupporter then DistanceBonus(g.Distance(controller, pos), prm.spotDistFromControllingPlayerScore) else 0.0)
  }

  class SupportSpotCalculator {
    var spots: seq<SupportSpot>
    /** The index of the best spot of the last update; None stands for no spot yet. */
    var best: Option<nat>

    ghost predicate Valid()
      reads this
    {
      best.Some? ==> best.value < |spots|
    }

    /**
     * Lays out the grid: `numX / 2 - 1` columns of `numY` spots each, all
     * scored zero, and no best spot yet.
     */
    constructor (numX: int, numY: int, area: Rect, color: TeamColor)
      ensures Valid() && best == None
      ensures spots == Grid(numX, numY, area, color)
    {
      var l := LayoutOf(numX, numY, area);
      var count, rows := ColumnCount(numX), RowCount(numY);
      spots := [];
      best := None;
      new;
      var x := 0;
      while x < numX / 2 - 1
        invariant 0 <= x <= count && best == None
        invariant spots == Columns(l, color, x, rows)
      {
        var y := 0;
        while y < numY
          invariant 0 <= y <= rows && best == None
          invariant spots == Columns(l, color, x, rows) + Column(l, color, x, rows)[..y]
        {
          var spot;
          if color == Blue {
            spot := SupportSpot(Vector2D(l.left + x as real * l.sliceX, l.top + y as real * l.sliceY), 0.0);
          } else {
            spot := SupportSpot(Vector2D(l.right - x as real * l.sliceX, l.top + y as real * l.sliceY), 0.0);
          }
          assert spot == SpotAt(l, color, x, y);
          spots := spots + [spot];
          ColumnPrefix(l, color, x, rows, y);
          y := y + 1;
        }
        assert Column(l, color, x, rows)[..rows] == Column(l, color, x, rows);
        assert Columns(l, color, x + 1, rows) == Columns(l, color, x, rows) + Column(l, color, x, rows);
        x := x + 1;
      }
    }

    /**
     * Recomputes the best spot unless the update regulator says it is not
     * yet time and a best spot is known, in which case that one is returned.
     * The scoring loop returns from inside its first pass, so only the first
     * spot is ever scored, and it always becomes the best.  The pass-safety
     * and shooting tests and the presence of a supporting player are the
     * team's answers, passed in.
     */
    method DetermineBestSupportingPosition(ready: bool, passSafe: Vector2D -> bool, canShoot: Vector2D -> bool,
                                           hasSupporter: bool, controller: Vector2D, prm: Params, g: Geometry)
      returns (pos: Vector2D)
      requires Valid()
      // the source falls off the end of the function without a spot, and
      // dereferences a null best spot when the first score is not positive
      requires ready || best.None? ==>
        |spots| > 0 && SpotScore(spots[0].pos, passSafe, canShoot, hasSupporter, controller, prm, g) > 0.0
      modifies this
      ensures Valid() && best.Some? && pos == spots[best.value].pos
      ensures !ready && old(best).Some? ==> spots == old(spots) && best == old(best)
      ensures ready || old(best).None? ==>
        best == Some(0) &&
        spots == old(spots)[0 := SupportSpot(old(spots)[0].pos,
          SpotScore(old(spots)[0].pos, passSafe, canShoot, hasSupporter, controller, prm, g))]
    {
      if !ready && best.Some? {
        return spots[best.value].pos;
      }
      best := None;
      var bestScoreSoFar := 0.0;
      for i := 0 to |spots|
        invariant i == 0 && best == None && spots == old(spots)
      {
        var score := 1.0;
        var spotPos := spots[i].pos;
        if passSafe(spotPos) {
          score := score + prm.spotPassSafeScore;
        }
        if canShoot(spotPos) {
          score := score + prm.spotCanScoreFromPositionScore;
        }
        if hasSupporter {
          var dist := g.Distance(controller, spotPos);
          var temp := Abs(OptimalDistance - dist);
          if temp < OptimalDistance {
            score := score + prm.spotDistFromControllingPlayerScore * (OptimalDistance - temp) / OptimalDistance;
          }
        }
        assert score == SpotScore(spotPos, passSafe, canShoot, hasSupporter, controller, prm, g);
        spots := spots[i := SupportSpot(spotPos, score)];
        if score > bestScoreSoFar {
          bestScoreSoFar := score;
          best := Some(i);
        }
        return spots[best.value].pos;
      }
      assert false;
    }

    /** The remembered best spot, or a freshly determined one when there is none yet. */
    method GetBestSupportingSpot(ready: bool, passSafe: Vector2D -> bool, canShoot: Vector2D -> bool,
                                 hasSupporter: bool, controller: Vector2D, prm: Params, g: Geometry)
      returns (pos: Vector2D)
      requires Valid()
      requires best.None? ==>
        |spots| > 0 && SpotScore(spots[0].pos, passSafe, canShoot, hasSupporter, controller, prm, g) > 0.0
      modifies this
      ensures Valid() && best.Some? && pos == spots[best.value].pos
      ensures old(best).Some? ==> spots == old(spots) && best == old(best)
      ensures old(best).None? ==>
        best == Some(0) &&
        spots == old(spots)[0 := SupportSpot(old(spots)[0].pos,
          SpotScore(old(spots)[0].pos, passSafe, canShoot, hasSupporter, controller, prm, g))]
    {
      if best.Some? {
        pos := spots[best.value].pos;
      } else {
        pos := DetermineBestSupportingPosition(ready, passSafe, canShoot, hasSupporter, controller, prm, g);
      }
    }
  }

  lemma ColumnPrefix(l: Layout, color: TeamColor, x: int, numY: nat, y: nat)
    requires y < numY
    ensures Column(l, color, x, numY)[..y + 1] == Column(l, color, x, numY)[..y] + [SpotAt(l, color, x, y)]
  {
  }

  /** The grid holds `numX / 2 - 1` columns of `numY` spots (none when `numX` is below 4). */
  lemma {:induction false} ColumnsSize(l: Layout, color: TeamColor, n: nat, numY: nat)
    ensures |Columns(l, color, n, numY)| == n * numY
  {
    if n > 0 {
      ColumnsSize(l, color, n - 1, numY);
      assert (n - 1) * numY + numY == n * numY;
    }
  }

  lemma GridSize(numX: int, numY: int, area: Rect, color: TeamColor)
    ensures |Grid(numX, numY, area, color)| == ColumnCount(numX) * RowCount(numY)
    ensures 0 < numY ==> |Grid(numX, numY, area, color)| == ColumnCount(numX) * numY
    ensures numX < 4 || numY <= 0 ==> Grid(numX, numY, area, color) == []
  {
    ColumnsSize(LayoutOf(numX, numY, area), color, ColumnCount(numX), RowCount(numY));
  }

  /** Spot `x * numY + y` of the grid is the one in column `x`, row `y`. */
  lemma {:induction false} ColumnsIndex(l: Layout, color: TeamColor, n: nat, numY: nat, x: nat, y: nat)
    requires x < n && y < numY
    ensures x * numY + y < |Columns(l, color, n, numY)|
    ensures Columns(l, color, n, numY)[x * numY + y] == SpotAt(l, color, x, y)
  {
    var prefix := Columns(l, color, n - 1, numY);
    ColumnsSize(l, color, n - 1, numY);
    ColumnsSize(l, color, n, numY);
    var i := x * numY + y;
    if x < n - 1 {
      ColumnsIndex(l, color, n - 1, numY, x, y);
      assert i < |prefix|;
      assert Columns(l, color, n, numY) == prefix + Column(l, color, n - 1, numY);
    } else {
      assert i == |prefix| + y;
      assert Columns(l, color, n, numY) == prefix + Column(l, color, n - 1, numY);
    }
  }

  /** Every spot starts with a score of zero. */
  lemma {:induction false} ColumnsUnscored(l: Layout, color: TeamColor, n: nat, numY: nat, i: nat)
    requires i < |Columns(l, color, n, numY)|
    ensures Columns(l, color, n, numY)[i].score == 0.0
  {
    if n > 0 {
      var prefix := Columns(l, color, n - 1, numY);
      if i >= |prefix| {
        assert Columns(l, color, n, numY)[i] == SpotAt(l, color, n - 1, i - |prefix|);
      } else {
        ColumnsUnscored(l, color, n - 1, numY, i);
      }
    }
  }

  /**
   * The red grid is the blue grid reflected about the playing area's
   * centre line and then shifted one slice to the right: both layout edges
   * add half a slice, so the red columns sit one slice further right than
   * an exact mirror would put them.  Rows agree.
   */
  lemma GridMirrored(numX: int, numY: int, area: Rect, x: nat, y: nat)
    requires x < ColumnCount(numX) && y < numY
    ensures x * numY + y < |Grid(numX, numY, area, Blue)| && x * numY + y < |Grid(numX, numY, area, Red)|
    ensures var l := LayoutOf(numX, numY, area);
      var b := Grid(numX, numY, area, Blue)[x * numY + y].pos;
      var r := Grid(numX, numY, area, Red)[x * numY + y].pos;
      r.x == area.left + area.right - b.x + l.sliceX && b.y == r.y
  {
    var l := LayoutOf(numX, numY, area);
    ColumnsIndex(l, Blue, ColumnCount(numX), numY, x, y);
    ColumnsIndex(l, Red, ColumnCount(numX), numY, x, y);
  }

  /**
   * On a playing area of positive width the red team's first column lies
   * half a slice beyond the right edge of the support region (the middle
   * 90% of the width), while the blue team's first column lies half a slice
   * inside the left edge.
   */
  lemma RedFirstColumnOutside(numX: int, numY: int, area: Rect, y: nat)
    requires 0 < ColumnCount(numX) && y < numY && 0.0 < area.width
    ensures y < |Grid(numX, numY, area, Blue)| && y < |Grid(numX, numY, area, Red)|
    ensures var l := LayoutOf(numX, numY, area);
      0.0 < l.sliceX &&
      Grid(numX, numY, area, Red)[y].pos.x == area.right - area.width * 0.05 + l.sliceX / 2.0 &&
      Grid(numX, numY, area, Blue)[y].pos.x == area.left + area.width * 0.05 + l.sliceX / 2.0
  {
    var l := LayoutOf(numX, numY, area);
    ColumnsIndex(l, Blue, ColumnCount(numX), numY, 0, y);
    ColumnsIndex(l, Red, ColumnCount(numX), numY, 0, y);
    assert 0 < numX;
    assert l.sliceX == area.width * 0.9 / numX as real;
  }

  /** With non-negative weights every spot scores at least one, so the best spot is always set. */
  lemma ScoreAtLeastOne(pos: Vector2D, passSafe: Vector2D -> bool, canShoot: Vector2D -> bool,
                        hasSupporter: bool, controller: Vector2D, prm: Params, g: Geometry)
    requires 0.0 <= prm.spotPassSafeScore && 0.0 <= prm.spotCanScoreFromPositionScore
    requires 0.0 <= prm.spotDistFromControllingPlayerScore
    ensures SpotScore(pos, passSafe, canShoot, hasSupporter, controller, prm, g) >= 1.0
  {
    DistanceBonusRange(g.Distance(controller, pos), prm.spotDistFromControllingPlayerScore);
  }

  /**
   * The distance bonus lies between zero and the full weight, reaches the
   * full weight exactly at the optimal distance and vanishes at twice it
   * and beyond (or at no distance at all).
   */
  lemma DistanceBonusRange(dist: real, weight: real)
    requires 0.0 <= weight
    ensures 0.0 <= DistanceBonus(dist, weight) <= weight
    ensures dist == OptimalDistance ==> DistanceBonus(dist, weight) == weight
    ensures dist <= 0.0 || dist >= 2.0 * OptimalDistance ==> DistanceBonus(dist, weight) == 0.0
    ensures 0.0 < weight && 0.0 < dist < 2.0 * OptimalDistance ==> DistanceBonus(dist, weight) > 0.0
  {
    var temp := Abs(OptimalDistance - dist);
    if temp < OptimalDistance {
      var f := (OptimalDistance - temp) / OptimalDistance;
      assert 0.0 < f <= 1.0;
      assert weight * (OptimalDistance - temp) / OptimalDistance == weight * f;
      NonNegativeProduct(weight, f);
      assert weight * f <= weight * 1.0;
    }
  }

  /** The bonus is symmetric about the optimal distance. */
  lemma DistanceBonusSymmetric(d: real, weight: real)
    ensures DistanceBonus(OptimalDistance - d, weight) == DistanceBonus(OptimalDistance + d, weight)
  {
  }
}
