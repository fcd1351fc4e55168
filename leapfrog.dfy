/**
 * The pure arithmetic shared by both simulators (simulate/simulate.py and
 * simulate.py): the leapfrog update, the Laplacian scaled by the grid step,
 * the stability (CFL) condition and the number of history frames.
 *
 * `scipy.ndimage.laplace` is not defined here: a `Stencil` gives its value
 * at each flat cell of a grid, and the only fact assumed of it, where a
 * property needs it, is that it is zero everywhere on the zero grid.
 */
module Leapfrog {
  import opened Wrappers
  import Arith
  import opened Grid

  /** `scipy.ndimage.laplace(grid)[k]` for an array of the given shape. */
  type Stencil = (seq<nat>, seq<real>, nat) -> real

  /** The stencil is zero at every cell of the zero grid of this shape. */
  predicate MapsZeroToZero(lap: Stencil, shape: seq<nat>)
  {
    forall k :: 0 <= k < Size(shape) ==> lap(shape, Zeros(Size(shape)), k) == 0.0
  }

  /** `Calculate.laplacian_operator(grid, gridstep)`: `laplace(grid) / gridstep**2`, as two divisions. */
  function Laplacian(lap: Stencil, shape: seq<nat>, grid: seq<real>, gridstep: real): (r: seq<real>)
    requires gridstep != 0.0
    ensures |r| == |grid|
    ensures forall k :: 0 <= k < |r| ==> r[k] * gridstep * gridstep == lap(shape, grid, k)
  {
    seq(|grid|, k requires 0 <= k < |grid| => Arith.Quotient(Arith.Quotient(lap(shape, grid, k), gridstep), gridstep))
  }

  /** `(wavespeed * timestep)**2`, the factor of the Laplacian in the update. */
  function Courant2(wavespeed: real, timestep: real): (r: real)
    ensures r >= 0.0
    ensures r == 0.0 <==> wavespeed == 0.0 || timestep == 0.0
  {
    Arith.ProductZero(wavespeed, timestep);
    Arith.ProductZero(wavespeed * timestep, wavespeed * timestep);
    (wavespeed * timestep) * (wavespeed * timestep)
  }

  /** `_update`: `2 * curr - prev + coefficient * laplacian`, cell by cell. */
  function Update(prev: seq<real>, curr: seq<real>, laplacian: seq<real>, coefficient: real): (r: seq<real>)
    requires |prev| == |curr| == |laplacian|
    ensures |r| == |curr|
    // the change from one frame to the next grows by the scaled Laplacian
    ensures forall k :: 0 <= k < |r| ==> r[k] - curr[k] == (curr[k] - prev[k]) + Arith.Scale(coefficient, laplacian[k])
    // the scheme is symmetric in time: the same rule run from (next, curr) gives prev
    ensures forall k :: 0 <= k < |r| ==> prev[k] == 2.0 * curr[k] - r[k] + Arith.Scale(coefficient, laplacian[k])
  {
    seq(|curr|, k requires 0 <= k < |curr| => 2.0 * curr[k] - prev[k] + Arith.Scale(coefficient, laplacian[k]))
  }

  /** The update is reversible: running it backwards from `(next, curr)` gives `prev` back. */
  lemma UpdateReversible(prev: seq<real>, curr: seq<real>, laplacian: seq<real>, coefficient: real)
    requires |prev| == |curr| == |laplacian|
    ensures Update(Update(prev, curr, laplacian, coefficient), curr, laplacian, coefficient) == prev
  {
  }

  /** The Laplacian of the zero grid is zero when the stencil is. */
  lemma LaplacianOfZero(lap: Stencil, shape: seq<nat>, gridstep: real)
    requires gridstep != 0.0 && MapsZeroToZero(lap, shape)
    ensures Laplacian(lap, shape, Zeros(Size(shape)), gridstep) == Zeros(Size(shape))
  {
    var z := Zeros(Size(shape));
    forall k | 0 <= k < Size(shape)
      ensures Laplacian(lap, shape, z, gridstep)[k] == 0.0
    {
      Arith.QuotientOfZero(lap(shape, z, k), gridstep);
      Arith.QuotientOfZero(Arith.Quotient(lap(shape, z, k), gridstep), gridstep);
    }
  }

  /** Two zero frames and a zero Laplacian give a zero next frame. */
  lemma UpdateOfZero(n: nat, coefficient: real)
    ensures Update(Zeros(n), Zeros(n), Zeros(n), coefficient) == Zeros(n)
  {
    forall k | 0 <= k < n
      ensures Update(Zeros(n), Zeros(n), Zeros(n), coefficient)[k] == 0.0
    {
      Arith.ScaleZero(coefficient);
    }
  }

  /** `sigma <= 1/sqrt(dims)` without the square root; for `dims == 0` numpy's `1/0.0` is infinite. */
  predicate IsStable(sigma: real, dims: nat)
  {
    sigma <= 0.0 || sigma * sigma * (dims as real) <= 1.0
  }

  /** The square-root-free condition agrees with `sigma <= 1/root` for the positive root of `dims`. */
  lemma {:induction false} StableIffBelowInverseRoot(sigma: real, dims: nat, root: real)
    requires root > 0.0 && root * root == dims as real
    ensures IsStable(sigma, dims) <==> sigma * root <= 1.0
  {
    assert sigma * sigma * (dims as real) == (sigma * root) * (sigma * root);
    if sigma > 0.0 {
      Arith.ProductPositive(sigma, root);
      if sigma * root <= 1.0 {
        Arith.SquareAtMost(sigma * root, 1.0);
      } else {
        Arith.SquareLess(1.0, sigma * root);
      }
    }
  }

  /** With no axes the bound `1/sqrt(0)` is infinite, so every sigma is stable. */
  lemma NoAxesIsStable(sigma: real)
    ensures IsStable(sigma, 0)
  {
  }

  datatype ArithmeticError = ZeroDivision

  /** `wavespeed * timestep / gridstep`; Python raises ZeroDivisionError for a zero grid step. */
  function Sigma(wavespeed: real, timestep: real, gridstep: real): (r: Result<real, ArithmeticError>)
    ensures r.Err? <==> gridstep == 0.0
    ensures r.Ok? ==> r.value * gridstep == wavespeed * timestep
  {
    if gridstep == 0.0 then Err(ZeroDivision) else Ok(Arith.Quotient(wavespeed * timestep, gridstep))
  }

  /** The stability test on the run's parameters: a zero grid step raises, otherwise the CFL condition on sigma. */
  function Stability(wavespeed: real, timestep: real, gridstep: real, dims: nat): (r: Result<bool, ArithmeticError>)
    ensures r.Err? <==> gridstep == 0.0
    ensures r.Ok? ==> (r.value <==> IsStable(Sigma(wavespeed, timestep, gridstep).value, dims))
  {
    match Sigma(wavespeed, timestep, gridstep)
    case Ok(sigma) => Ok(IsStable(sigma, dims))
    case Err(e) => Err(e)
  }

  /** `np.ceil(x)` as an integer. */
  function Ceil(x: real): (r: int)
    ensures x <= r as real < x + 1.0
  {
    -((-x).Floor)
  }

  /** `int(np.ceil(duration / timestep)) + 1`; Python raises ZeroDivisionError for a zero time step. */
  function TotalIterations(duration: real, timestep: real): (r: Result<int, ArithmeticError>)
    ensures r.Err? <==> timestep == 0.0
    ensures r.Ok? ==> r.value == Ceil(Arith.Quotient(duration, timestep)) + 1
  {
    if timestep == 0.0 then Err(ZeroDivision) else Ok(Ceil(Arith.Quotient(duration, timestep)) + 1)
  }

  /**
   * For a positive time step, `n = total_iterations - 1` is the number of
   * steps of that length it takes to reach `duration`: `n - 1` steps fall short.
   */
  lemma StepsCoverDuration(duration: real, timestep: real)
    requires timestep > 0.0
    ensures TotalIterations(duration, timestep).value - 1 == Ceil(Arith.Quotient(duration, timestep))
    ensures var n := Ceil(Arith.Quotient(duration, timestep));
            (n as real - 1.0) * timestep < duration <= n as real * timestep
  {
    var q := Arith.Quotient(duration, timestep);
    var n := Ceil(q);
    var below, at := n as real - 1.0, n as real;
    assert below < q <= at;
    Arith.TimesPositive(below, q, timestep);
    Arith.TimesPositive(q, at, timestep);
    assert below * timestep < duration <= at * timestep;
  }

  /** Why `__init__` raises: a zero time step, or a negative number of history frames. */
  datatype InitError = DivisionByZero | NegativeDimensions

  /** `(pressure_prev, pressure_curr, time)` between two steps. */
  datatype Frames = Frames(prev: seq<real>, curr: seq<real>, time: real)

  /** `_initialize`: two zero grids at time 0 (`_apply_initial_conditions` changes nothing). */
  function Initialize(shape: seq<nat>): (f: Frames)
    ensures f.prev == f.curr == Zeros(Size(shape)) && f.time == 0.0
  {
    Frames(Zeros(Size(shape)), Zeros(Size(shape)), 0.0)
  }
}
