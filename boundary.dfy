/**
 * The coefficient boundary (boundary.py): a region of a grid that is
 * multiplied in place by a stored coefficient.
 *
 * A numpy index into the grid is modelled by the set of flat cells it
 * selects; `None` is numpy's new axis, which selects the whole grid. A cell
 * selected twice is still scaled once, because the right-hand side is
 * computed from the old values before any is written.
 */
module Boundary {
  import opened Wrappers

  /** The region selects cell `k` of the grid. */
  predicate Covers(region: Option<set<nat>>, k: nat)
  {
    region.None? || k in region.value
  }

  /** Every cell the region selects lies inside a grid of `n` cells. */
  predicate InRange(region: Option<set<nat>>, n: nat)
  {
    region.Some? ==> forall k :: k in region.value ==> k < n
  }

  /** The grid after the cells of the region are multiplied by `c`. */
  function Scaled(g: seq<real>, region: Option<set<nat>>, c: real): (r: seq<real>)
    ensures |r| == |g|
    ensures forall k :: 0 <= k < |g| && Covers(region, k) ==> r[k] == c * g[k]
    ensures forall k :: 0 <= k < |g| && !Covers(region, k) ==> r[k] == g[k]
  {
    seq(|g|, k requires 0 <= k < |g| => if Covers(region, k) then c * g[k] else g[k])
  }

  /** Coefficient 0, the default, clamps the region to zero. */
  lemma ScaledByZero(g: seq<real>, region: Option<set<nat>>)
    ensures forall k :: 0 <= k < |g| && Covers(region, k) ==> Scaled(g, region, 0.0)[k] == 0.0
  {
  }

  /** Coefficient 1 leaves the grid as it was. */
  lemma ScaledByOne(g: seq<real>, region: Option<set<nat>>)
    ensures Scaled(g, region, 1.0) == g
  {
  }

  /** Applying with `c` twice is applying once with `c * c`. */
  lemma ScaledTwice(g: seq<real>, region: Option<set<nat>>, c: real)
    ensures Scaled(Scaled(g, region, c), region, c) == Scaled(g, region, c * c)
  {
    var twice, square := Scaled(Scaled(g, region, c), region, c), Scaled(g, region, c * c);
    forall k | 0 <= k < |g|
      ensures twice[k] == square[k]
    {
      if Covers(region, k) {
        assert twice[k] == c * (c * g[k]);
      }
    }
  }

  /** With region `None` every cell is scaled. */
  lemma WholeGridScaled(g: seq<real>, c: real)
    ensures Scaled(g, None, c) == seq(|g|, k requires 0 <= k < |g| => c * g[k])
  {
  }

  datatype BoundaryError = IndexError   // the index selects a cell outside the grid

  class Boundary {
    const gridsize: seq<nat>
    var region: Option<set<nat>>
    var coefficient: real

    /** `Boundary(gridsize)`: no region yet, coefficient 0. */
    constructor (gridsize: seq<nat>)
      ensures this.gridsize == gridsize && region == None && coefficient == 0.0
    {
      this.gridsize := gridsize;
      region := None;
      coefficient := 0.0;
    }

    /** `set_boundary`: replaces the region; the coefficient is unchanged. */
    method SetBoundary(boundary: Option<set<nat>>)
      modifies this
      ensures region == boundary && coefficient == old(coefficient)
    {
      region := boundary;
    }

    /** `set_boundary_condition`: replaces the coefficient; the region is unchanged. */
    method SetBoundaryCondition(boundaryCoefficient: real)
      modifies this
      ensures coefficient == boundaryCoefficient && region == old(region)
    {
      coefficient := boundaryCoefficient;
    }

    /**
     * `apply_boundary_condition(grid)`: scales the region in place and
     * returns the same array. An index outside the grid raises before any
     * cell is written.
     */
    method ApplyBoundaryCondition(grid: array<real>) returns (r: Result<array<real>, BoundaryError>)
      modifies grid
      ensures r.Err? <==> !InRange(region, grid.Length)
      ensures r.Err? ==> grid[..] == old(grid[..])
      ensures r.Ok? ==> r.value == grid && grid[..] == Scaled(old(grid[..]), region, coefficient)
    {
      if region.Some? && exists k :: k in region.value && k >= grid.Length {
        return Err(IndexError);
      }
      var c, sel := coefficient, region;
      ghost var before := grid[..];
      forall k | 0 <= k < grid.Length && Covers(sel, k) {
        grid[k] := c * grid[k];
      }
      assert forall k :: 0 <= k < grid.Length ==> grid[k] == Scaled(before, sel, c)[k];
      return Ok(grid);
    }
  }
}
