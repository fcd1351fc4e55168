/**
 * The earlier simulator (simulate.py): no driver list, a fixed cosine of
 * frequency 3 added at index `[1, 1]` before every step, a boolean stability
 * check, and a while-loop over the clock whose `k`-th pass writes history
 * row `k` with the grid after step `k + 1`.
 *
 * On an N-dimensional grid `pressure[1, 1]` is the sub-array of all cells
 * whose first two coordinates are 1, and numpy adds the value to each of
 * them; with fewer than two axes, or an axis of size below 2 among the first
 * two, the indexing raises IndexError.
 */
module Legacy {
  import opened Wrappers
  import Arith
  import opened Grid
  import opened Waveforms
  import opened Leapfrog

  /** `np.cos(2 * np.pi * 3 * time)`. */
  function DriveValue(m: Math, time: real): real
  {
    m.cos(2.0 * m.pi * 3.0 * time)
  }

  /** The fixed drive is the value of the default `Cosine` waveform of the newer simulator. */
  lemma DriveIsDefaultCosine(m: Math, time: real)
    ensures Call(DefaultCosine, m, time) == Ok(DriveValue(m, time))
  {
    assert CosineValue(m, 3.0, 1.0, time) == DriveValue(m, time);
  }

  /** `pressure[1, 1]` exists: at least two axes, the first two of size at least 2. */
  predicate HasCellOneOne(shape: seq<nat>)
  {
    |shape| >= 2 && shape[0] >= 2 && shape[1] >= 2
  }

  /** The flat cell `k` is one of the cells `pressure[1, 1]` selects. */
  predicate AtOneOne(shape: seq<nat>, k: nat)
    requires |shape| >= 2 && k < Size(shape)
  {
    Index(shape, k)[0] == 1 && Index(shape, k)[1] == 1
  }

  /** The grid after `pressure[1, 1] += value`. */
  function Drive(shape: seq<nat>, grid: seq<real>, value: real): (r: seq<real>)
    requires HasCellOneOne(shape) && |grid| == Size(shape)
    ensures |r| == |grid|
  {
    seq(|grid|, k requires 0 <= k < |grid| => if AtOneOne(shape, k) then grid[k] + value else grid[k])
  }

  /** On a two-dimensional grid the drive reaches exactly one cell, the one at `(1, 1)`. */
  lemma DriveTwoDimensional(shape: seq<nat>, grid: seq<real>, value: real, k: nat)
    requires HasCellOneOne(shape) && |shape| == 2 && |grid| == Size(shape) && k < |grid|
    ensures AtOneOne(shape, k) <==> k == Offset(shape, [1, 1])
  {
    assert InBounds(shape, [1, 1]);
    if k == Offset(shape, [1, 1]) {
      IndexOfOffset(shape, [1, 1]);
    }
    if AtOneOne(shape, k) {
      var idx := Index(shape, k);
      assert idx == [1, 1];
    }
  }

  /** Everything the old loop depends on. */
  datatype LegacyScene = LegacyScene(lap: Stencil, m: Math, shape: seq<nat>, gridstep: real,
                                     timestep: real, wavespeed: real)

  /**
   * One pass of the while-loop: the drive is added to `curr` in place, then
   * `_simulation_loop` computes the next grid with zero edges from the driven
   * grid, which also becomes the new `prev`.
   */
  function LegacyStep(sc: LegacyScene, f: Frames): (r: Frames)
    requires sc.gridstep != 0.0 && HasCellOneOne(sc.shape)
    requires |f.prev| == |f.curr| == Size(sc.shape)
    ensures |r.prev| == |r.curr| == Size(sc.shape)
  {
    var driven := Drive(sc.shape, f.curr, DriveValue(sc.m, f.time));
    var laplacian := Laplacian(sc.lap, sc.shape, driven, sc.gridstep);
    var next := Update(f.prev, driven, laplacian, Courant2(sc.wavespeed, sc.timestep));
    Frames(driven, WithEdges(sc.shape, next, 0.0), f.time + sc.timestep)
  }

  /** The frames after `k` passes. */
  function LegacyState(sc: LegacyScene, k: nat): (f: Frames)
    requires sc.gridstep != 0.0 && (k == 0 || HasCellOneOne(sc.shape))
    ensures |f.prev| == |f.curr| == Size(sc.shape)
  {
    if k == 0 then Initialize(sc.shape) else LegacyStep(sc, LegacyState(sc, k - 1))
  }

  /** `time = iteration * timestep` holds at the top of every pass. */
  lemma {:induction false} LegacyStateTime(sc: LegacyScene, k: nat)
    requires sc.gridstep != 0.0 && (k == 0 || HasCellOneOne(sc.shape))
    ensures LegacyState(sc, k).time == k as real * sc.timestep
  {
    if k > 0 {
      LegacyStateTime(sc, k - 1);
      assert (k - 1) as real * sc.timestep + sc.timestep == k as real * sc.timestep;
    }
  }

  /** Every grid the loop records has zero edges. */
  lemma LegacyEdgesAreZero(sc: LegacyScene, k: nat, idx: seq<int>)
    requires sc.gridstep != 0.0 && HasCellOneOne(sc.shape) && 0 < k
    requires InBounds(sc.shape, idx) && IsEdge(sc.shape, idx)
    ensures LegacyState(sc, k).curr[Offset(sc.shape, idx)] == 0.0
  {
    var f := LegacyState(sc, k - 1);
    var driven := Drive(sc.shape, f.curr, DriveValue(sc.m, f.time));
    var laplacian := Laplacian(sc.lap, sc.shape, driven, sc.gridstep);
    WithEdgesCells(sc.shape, Update(f.prev, driven, laplacian, Courant2(sc.wavespeed, sc.timestep)), 0.0, idx);
  }

  /**
   * The number of passes of `while time < duration` with exact real time:
   * `ceil(duration / timestep)` for a positive step and duration, else none
   * (with a negative step and a positive duration the clock never reaches the
   * duration, and only a history write past the end stops the loop).
   */
  function StepCount(duration: real, timestep: real): (n: nat)
    ensures n > 0 ==> timestep > 0.0 && duration > 0.0
  {
    if timestep > 0.0 && duration > 0.0 then
      var n := Ceil(Arith.Quotient(duration, timestep));
      CountPositive(duration, timestep);
      n
    else 0
  }

  lemma CountPositive(duration: real, timestep: real)
    requires timestep > 0.0 && duration > 0.0
    ensures Ceil(Arith.Quotient(duration, timestep)) >= 1
  {
    var q := Arith.Quotient(duration, timestep);
    Arith.TimesPositive(q, 0.0, timestep);
  }

  /** The clock after `k` passes is below `duration` exactly when `k` is below the pass count. */
  lemma BeforeDurationIffBelowCount(k: nat, duration: real, timestep: real)
    requires timestep > 0.0
    ensures k as real * timestep < duration <==> k < StepCount(duration, timestep)
  {
    var q := Arith.Quotient(duration, timestep);
    Arith.TimesPositive(k as real, q, timestep);
    assert k as real * timestep < duration <==> k as real < q;
    if duration <= 0.0 {
      Arith.TimesPositive(q, 0.0, timestep);
    }
  }

  /** With a negative step the clock never rises above 0. */
  lemma ClockNonPositive(k: nat, timestep: real)
    requires timestep < 0.0
    ensures k as real * timestep <= 0.0
  {
    Arith.TimesPositive(0.0, k as real, -timestep);
    assert k as real * -timestep == -(k as real * timestep);
  }

  /** What the loop condition `time < duration` tells after `k` passes. */
  lemma ClockFacts(sc: LegacyScene, k: nat, duration: real)
    requires sc.gridstep != 0.0 && sc.timestep != 0.0 && (k == 0 || HasCellOneOne(sc.shape))
    ensures var t := LegacyState(sc, k).time;
            && (sc.timestep > 0.0 ==> (t < duration <==> k < StepCount(duration, sc.timestep)))
            && (sc.timestep < 0.0 ==> t <= 0.0)
  {
    LegacyStateTime(sc, k);
    if sc.timestep > 0.0 {
      BeforeDurationIffBelowCount(k, duration, sc.timestep);
    } else {
      ClockNonPositive(k, sc.timestep);
    }
  }

  datatype LegacyError =
    | DriverIndexError    // `pressure[1, 1]` on a grid without that sub-array
    | EdgeIndexError      // set_edge_values on a grid with an axis of length 0
    | HistoryIndexError   // `history[iteration]` past the last row

  /** A pass of the while-loop raises nothing: `pressure[1, 1]` exists and the edges can be set. */
  predicate PassSucceeds(shape: seq<nat>)
  {
    HasCellOneOne(shape) && !HasEmptyAxis(shape)
  }

  /** The exception a pass raises: the drive's IndexError first, then that of setting the edges. */
  function PassFailure(shape: seq<nat>): LegacyError
    requires !PassSucceeds(shape)
  {
    if !HasCellOneOne(shape) then DriverIndexError else EdgeIndexError
  }

  class LegacySimulate {
    const gridsize: seq<nat>
    const gridstep: real
    const duration: real
    const timestep: real
    const wavespeed: real
    const dims: nat
    const history: array<seq<real>>

    predicate Valid()
      reads this
    {
      && dims == |gridsize|
      && TotalIterations(duration, timestep).Ok?
      && history.Length == TotalIterations(duration, timestep).value
    }

    /** `__init__` once the division by `timestep` has succeeded. */
    constructor (gridsize: seq<nat>, gridstep: real, duration: real, timestep: real, wavespeed: real)
      requires TotalIterations(duration, timestep).Ok? && TotalIterations(duration, timestep).value >= 0
      ensures Valid()
      ensures this.gridsize == gridsize && this.gridstep == gridstep && this.duration == duration
      ensures this.timestep == timestep && this.wavespeed == wavespeed
      ensures forall i :: 0 <= i < history.Length ==> history[i] == Zeros(Size(gridsize))
      ensures fresh(history)
    {
      this.gridsize := gridsize;
      this.gridstep := gridstep;
      this.duration := duration;
      this.timestep := timestep;
      this.wavespeed := wavespeed;
      dims := |gridsize|;
      var zero := Zeros(Size(gridsize));
      history := new seq<real>[TotalIterations(duration, timestep).value](_ => zero);
    }

    /** `Simulate(...)`, with the errors of `__init__` as values. */
    static method Create(gridsize: seq<nat>, gridstep: real, duration: real, timestep: real, wavespeed: real)
      returns (r: Result<LegacySimulate, InitError>)
      ensures r.Err? <==> timestep == 0.0 || TotalIterations(duration, timestep).value < 0
      ensures r.Err? ==> (r.error == DivisionByZero <==> timestep == 0.0)
      ensures r.Ok? ==> fresh(r.value) && fresh(r.value.history) && r.value.Valid()
      ensures r.Ok? ==> r.value.gridsize == gridsize && r.value.timestep == timestep && r.value.duration == duration
      ensures r.Ok? ==> r.value.gridstep == gridstep && r.value.wavespeed == wavespeed
      ensures r.Ok? ==> forall i :: 0 <= i < r.value.history.Length ==> r.value.history[i] == Zeros(Size(gridsize))
    {
      var n := TotalIterations(duration, timestep);
      if n.Err? {
        return Err(DivisionByZero);
      }
      if n.value < 0 {
        return Err(NegativeDimensions);
      }
      var s := new LegacySimulate(gridsize, gridstep, duration, timestep, wavespeed);
      return Ok(s);
    }

    /** `check_stability`: returns `sigma <= 1/sqrt(dims)` instead of warning. */
    method CheckStability() returns (stable: Result<bool, ArithmeticError>)
      ensures stable.Err? <==> gridstep == 0.0
      ensures stable.Ok? ==> (stable.value <==> IsStable(Sigma(wavespeed, timestep, gridstep).value, dims))
    {
      stable := Stability(wavespeed, timestep, gridstep, dims);
    }

    function SceneOf(lap: Stencil, m: Math): (sc: LegacyScene)
      ensures sc.shape == gridsize && sc.timestep == timestep && sc.gridstep == gridstep
    {
      LegacyScene(lap, m, gridsize, gridstep, timestep, wavespeed)
    }

    /** `_apply_driver`: `pressure[1, 1] += cos(2 * pi * 3 * time)` in place. */
    method ApplyDriver(pressure: array<real>, m: Math, time: real) returns (r: Result<array<real>, LegacyError>)
      requires Valid() && pressure.Length == Size(gridsize)
      modifies pressure
      ensures r.Err? <==> !HasCellOneOne(gridsize)
      ensures r.Err? ==> r.error == DriverIndexError && pressure[..] == old(pressure[..])
      ensures r.Ok? ==> r.value == pressure && pressure[..] == Drive(gridsize, old(pressure[..]), DriveValue(m, time))
    {
      if !HasCellOneOne(gridsize) {
        return Err(DriverIndexError);
      }
      ghost var before := pressure[..];
      var v := DriveValue(m, time);
      for k := 0 to pressure.Length
        invariant forall j :: 0 <= j < k ==> pressure[j] == Drive(gridsize, before, v)[j]
        invariant forall j :: k <= j < pressure.Length ==> pressure[j] == before[j]
      {
        if AtOneOne(gridsize, k) {
          pressure[k] := pressure[k] + v;
        }
      }
      return Ok(pressure);
    }

    /**
     * `_simulation_loop`: the update with zero edges and no drive; it changes
     * no field. Setting the edges of a grid with an axis of length 0 raises.
     */
    method SimulationLoop(lap: Stencil, prev: seq<real>, curr: seq<real>, time: real) returns (r: Result<Frames, LegacyError>)
      requires Valid() && gridstep != 0.0 && |prev| == |curr| == Size(gridsize)
      ensures r.Err? <==> HasEmptyAxis(gridsize)
      ensures r.Err? ==> r.error == EdgeIndexError
      ensures r.Ok? ==> r.value.prev == curr && r.value.time == time + timestep
      ensures r.Ok? ==> r.value.curr == WithEdges(gridsize, Update(prev, curr, Laplacian(lap, gridsize, curr, gridstep),
                                                                  Courant2(wavespeed, timestep)), 0.0)
    {
      var next := Update(prev, curr, Laplacian(lap, gridsize, curr, gridstep), Courant2(wavespeed, timestep));
      var pressure := new real[|next|](k requires 0 <= k < |next| => next[k]);
      assert pressure[..] == next;
      var clamped := SetEdgeValues(gridsize, pressure, 0.0);
      if clamped.Err? {
        return Err(EdgeIndexError);
      }
      return Ok(Frames(curr, clamped.value[..], time + timestep));
    }

    /** One pass of the while-loop of `run`: the drive, then `_simulation_loop`. */
    method Pass(lap: Stencil, m: Math, f: Frames) returns (r: Result<Frames, LegacyError>)
      requires Valid() && gridstep != 0.0 && |f.prev| == |f.curr| == Size(gridsize)
      ensures r.Ok? <==> PassSucceeds(gridsize)
      ensures r.Err? ==> r.error == PassFailure(gridsize)
      ensures r.Ok? ==> r.value == LegacyStep(SceneOf(lap, m), f)
    {
      var pressure := new real[|f.curr|](k requires 0 <= k < |f.curr| => f.curr[k]);
      assert pressure[..] == f.curr;
      var driven := ApplyDriver(pressure, m, f.time);
      if driven.Err? {
        return Err(DriverIndexError);
      }
      r := SimulationLoop(lap, f.prev, pressure[..], f.time);
    }

    /** `self.history[i] = row`: one row written, every other row kept. */
    method Record(i: nat, row: seq<real>)
      requires i < history.Length
      modifies history
      ensures history[i] == row
      ensures forall k :: 0 <= k < history.Length && k != i ==> history[k] == old(history[k])
    {
      history[i] := row;
    }

    /**
     * One pass of the while-loop of `run` after `iteration` passes: the
     * step, then history row `iteration`, which raises IndexError past the
     * end of the history.
     */
    method Advance(lap: Stencil, m: Math, iteration: nat, f: Frames) returns (r: Result<Frames, LegacyError>)
      requires Valid() && gridstep != 0.0 && (iteration == 0 || PassSucceeds(gridsize))
      requires f == LegacyState(SceneOf(lap, m), iteration)
      modifies history
      ensures r.Ok? <==> PassSucceeds(gridsize) && iteration < history.Length
      ensures r.Err? ==> r.error == if PassSucceeds(gridsize) then HistoryIndexError else PassFailure(gridsize)
      ensures r.Ok? ==> r.value == LegacyState(SceneOf(lap, m), iteration + 1) && history[iteration] == r.value.curr
      ensures r.Ok? ==> forall k :: 0 <= k < history.Length && k != iteration ==> history[k] == old(history[k])
    {
      var step := Pass(lap, m, f);
      if step.Err? {
        return Err(step.error);
      }
      if iteration >= history.Length {
        return Err(HistoryIndexError);
      }
      Record(iteration, step.value.curr);
      return Ok(step.value);
    }

    /**
     * `run`: pass `k` writes row `k` with the grid after `k + 1` steps. The
     * drive raises IndexError on a grid without `[1, 1]`, setting the edges
     * raises it on a grid with an axis of length 0, and writing a row past
     * the end of the history raises it too.
     */
    method Run(lap: Stencil, m: Math) returns (r: Result<array<seq<real>>, LegacyError>)
      requires Valid() && gridstep != 0.0
      modifies history
      ensures Valid()
      ensures r.Ok? <==> (timestep > 0.0 || duration <= 0.0)
                         && (StepCount(duration, timestep) == 0 || PassSucceeds(gridsize))
      ensures r.Err? ==> (r.error == DriverIndexError <==> duration > 0.0 && !HasCellOneOne(gridsize))
      ensures r.Err? ==> (r.error == EdgeIndexError <==> duration > 0.0 && HasCellOneOne(gridsize) && HasEmptyAxis(gridsize))
      ensures r.Ok? ==> r.value == history
      ensures r.Ok? ==> forall k :: 0 <= k < StepCount(duration, timestep) ==>
                          history[k] == LegacyState(SceneOf(lap, m), k + 1).curr
      ensures r.Ok? ==> forall k :: StepCount(duration, timestep) <= k < history.Length ==> history[k] == old(history[k])
      ensures r.Ok? && duration > 0.0 ==> history.Length == StepCount(duration, timestep) + 1
    {
      ghost var sc := SceneOf(lap, m);
      var f := Initialize(gridsize);
      var iteration: nat := 0;
      ghost var count := StepCount(duration, timestep);
      assert timestep > 0.0 && duration > 0.0 ==> count < history.Length;
      while f.time < duration
        invariant iteration <= history.Length
        invariant iteration > 0 ==> PassSucceeds(gridsize) && duration > 0.0
        invariant f == LegacyState(sc, iteration)
        invariant timestep > 0.0 ==> iteration <= count
        invariant forall k :: 0 <= k < iteration ==> history[k] == LegacyState(sc, k + 1).curr
        invariant forall k :: iteration <= k < history.Length ==> history[k] == old(history[k])
        decreases history.Length - iteration
      {
        ClockFacts(sc, iteration, duration);
        var step := Advance(lap, m, iteration, f);
        if step.Err? {
          return Err(step.error);
        }
        f := step.value;
        iteration := iteration + 1;
      }
      ClockFacts(sc, iteration, duration);
      assert iteration == count;
      return Ok(history);
    }
  }
}
