/**
 * The driver-based leapfrog simulator (simulate/simulate.py).
 *
 * The two pressure grids are flat row-major sequences of the shape's cells.
 * `_update` and the Laplacian come from module Leapfrog; the drivers are
 * added into a fresh array in place and its edges are then set to zero in
 * place. The history is an array with one frame per row, written by `Run`.
 * The functions `Inject`, `Step` and `State` are the specification the
 * methods are proved against.
 */
module Engine {
  import opened Wrappers
  import opened Grid
  import opened Waveforms
  import opened Setup
  import opened Leapfrog

  /** A driver whose value at every time is a number numpy can add into the grid. */
  predicate Evaluable(d: Driver)
  {
    d.waveform.Instance? && Callable(d.waveform.w)
  }

  /** Every driver location has one coordinate per axis, as the length check of `add_driver` ensures. */
  predicate Ranked(shape: seq<nat>, ds: seq<Driver>)
  {
    forall i :: 0 <= i < |ds| ==> |ds[i].location| == |shape|
  }

  /** `pressure[d.location] += d.get_value(time)` succeeds: a number, added at a cell numpy can select. */
  predicate Applies(shape: seq<nat>, d: Driver)
  {
    Evaluable(d) && Addressable(shape, d.location)
  }

  predicate AllApply(shape: seq<nat>, ds: seq<Driver>)
  {
    forall i :: 0 <= i < |ds| ==> Applies(shape, ds[i])
  }

  /** One step of `_simulation_loop` raises nothing: every driver applies and the edges can be set. */
  predicate StepSucceeds(shape: seq<nat>, ds: seq<Driver>)
  {
    AllApply(shape, ds) && !HasEmptyAxis(shape)
  }

  /** Whether `get_value` gives a number does not depend on the time. */
  lemma EvaluableIffNumber(d: Driver, m: Math, time: real)
    ensures Evaluable(d) <==> GetValue(d, m, time).Ok? && GetValue(d, m, time).value.Number?
  {
  }

  /** The number a driver contributes at a time. */
  function DriverValue(d: Driver, m: Math, time: real): real
    requires Evaluable(d)
  {
    GetValue(d, m, time).value.x
  }

  datatype RunError =
    | DriverRaised(cause: ValueError)   // get_value itself raised
    | DriverIndexError                   // `pressure[loc]` with a coordinate off its axis raises IndexError
    | DriverValueNotNumber               // get_value returned a Waveform: `pressure[loc] += instance` is a TypeError
    | EdgeIndexError                     // set_edge_values on a grid with an axis of length 0 raises IndexError
    | NoHistoryRow                       // `history[0] = ...` on a history with no rows

  /**
   * The exception `_apply_drivers` raises at a driver that does not apply:
   * `get_value` runs first, then `pressure[loc]` is read, then the value is added.
   */
  function Failure(shape: seq<nat>, d: Driver, m: Math, time: real): RunError
    requires !Applies(shape, d)
  {
    var v := GetValue(d, m, time);
    if v.Err? then DriverRaised(v.error)
    else if !Addressable(shape, d.location) then DriverIndexError
    else DriverValueNotNumber
  }

  /** The position of the first driver that does not apply, or `|ds|` when there is none. */
  function FirstFailing(shape: seq<nat>, ds: seq<Driver>): (r: nat)
    ensures r <= |ds|
    ensures forall j :: 0 <= j < r ==> Applies(shape, ds[j])
    ensures r < |ds| ==> !Applies(shape, ds[r])
    ensures r == |ds| <==> AllApply(shape, ds)
  {
    if ds == [] then 0
    else if !Applies(shape, ds[0]) then 0
    else 1 + FirstFailing(shape, ds[1..])
  }

  /** The exception one step raises: the first failing driver's, else the IndexError of setting the edges. */
  function StepFailure(shape: seq<nat>, ds: seq<Driver>, m: Math, time: real): RunError
    requires !StepSucceeds(shape, ds)
  {
    if !AllApply(shape, ds) then Failure(shape, ds[FirstFailing(shape, ds)], m, time) else EdgeIndexError
  }

  /**
   * The grid after the values of the first `n` drivers are added at their
   * cells, one driver after the other.
   */
  function AddInOrder(shape: seq<nat>, grid: seq<real>, ds: seq<Driver>, n: nat, m: Math, time: real): (r: seq<real>)
    requires |grid| == Size(shape) && n <= FirstFailing(shape, ds)
    ensures |r| == |grid|
  {
    if n == 0 then grid
    else
      var g := AddInOrder(shape, grid, ds, n - 1, m, time);
      var k := Cell(shape, ds[n - 1].location);
      g[k := g[k] + DriverValue(ds[n - 1], m, time)]
  }

  /** What one driver contributes to cell `k`. */
  function Contribution(shape: seq<nat>, d: Driver, m: Math, time: real, k: nat): real
    requires Applies(shape, d)
  {
    if Cell(shape, d.location) == k then DriverValue(d, m, time) else 0.0
  }

  /** The sum of the values of the drivers located at cell `k`. */
  function SumAt(shape: seq<nat>, ds: seq<Driver>, m: Math, time: real, k: nat): real
    requires AllApply(shape, ds)
  {
    if ds == [] then 0.0 else Contribution(shape, ds[0], m, time, k) + SumAt(shape, ds[1..], m, time, k)
  }

  lemma {:induction false} SumAtAppend(shape: seq<nat>, ds: seq<Driver>, d: Driver, m: Math, time: real, k: nat)
    requires AllApply(shape, ds) && Applies(shape, d)
    ensures AllApply(shape, ds + [d])
    ensures SumAt(shape, ds + [d], m, time, k) == SumAt(shape, ds, m, time, k) + Contribution(shape, d, m, time, k)
  {
    assert forall j :: 0 <= j < |ds| ==> (ds + [d])[j] == ds[j];
    if ds != [] {
      assert (ds + [d])[1..] == ds[1..] + [d];
      SumAtAppend(shape, ds[1..], d, m, time, k);
    }
  }

  /** Each cell of the grid the drivers are added into holds its old value plus the values of the drivers there. */
  function Inject(shape: seq<nat>, grid: seq<real>, ds: seq<Driver>, m: Math, time: real): (r: seq<real>)
    requires |grid| == Size(shape) && AllApply(shape, ds)
    ensures |r| == |grid|
  {
    seq(|grid|, k requires 0 <= k < |grid| => grid[k] + SumAt(shape, ds, m, time, k))
  }

  /** Adding the first `n` drivers one after the other gives, at every cell, the sum of those drivers there. */
  lemma {:induction false} AddInOrderIsInject(shape: seq<nat>, grid: seq<real>, ds: seq<Driver>, n: nat, m: Math, time: real)
    requires |grid| == Size(shape) && n <= FirstFailing(shape, ds)
    ensures AllApply(shape, ds[..n])
    ensures AddInOrder(shape, grid, ds, n, m, time) == Inject(shape, grid, ds[..n], m, time)
  {
    if n > 0 {
      var front, last := ds[..n - 1], ds[n - 1];
      assert ds[..n] == front + [last];
      AddInOrderIsInject(shape, grid, ds, n - 1, m, time);
      forall k | 0 <= k < |grid|
        ensures AddInOrder(shape, grid, ds, n, m, time)[k] == Inject(shape, grid, ds[..n], m, time)[k]
      {
        SumAtAppend(shape, front, last, m, time, k);
      }
    }
  }

  /** Removing the driver at position `i` takes its contribution out of the sum. */
  lemma {:induction false} SumAtRemove(shape: seq<nat>, ds: seq<Driver>, i: nat, m: Math, time: real, k: nat)
    requires AllApply(shape, ds) && i < |ds|
    ensures AllApply(shape, ds[..i] + ds[i + 1..])
    ensures SumAt(shape, ds, m, time, k)
            == Contribution(shape, ds[i], m, time, k) + SumAt(shape, ds[..i] + ds[i + 1..], m, time, k)
  {
    var rest := ds[..i] + ds[i + 1..];
    assert forall j :: 0 <= j < |rest| ==> rest[j] == if j < i then ds[j] else ds[j + 1];
    if i > 0 {
      SumAtRemove(shape, ds[1..], i - 1, m, time, k);
      assert ds[1..][..i - 1] + ds[1..][i..] == rest[1..];
    } else {
      assert rest == ds[1..];
    }
  }

  /** Where the first element of `ds` sits in its permutation `es`, and what is left of both. */
  lemma MultisetRemoveFirst(ds: seq<Driver>, es: seq<Driver>) returns (i: nat)
    requires ds != [] && multiset(ds) == multiset(es)
    ensures i < |es| && es[i] == ds[0]
    ensures multiset(ds[1..]) == multiset(es[..i] + es[i + 1..])
  {
    assert ds[0] in multiset(es);
    i :| 0 <= i < |es| && es[i] == ds[0];
    assert es == es[..i] + [es[i]] + es[i + 1..];
    assert multiset(es) == multiset(es[..i]) + multiset{es[i]} + multiset(es[i + 1..]);
    assert multiset(es[..i] + es[i + 1..]) == multiset(es[..i]) + multiset(es[i + 1..]);
    assert ds == [ds[0]] + ds[1..];
    assert multiset(ds) == multiset{ds[0]} + multiset(ds[1..]);
    assert multiset(ds[1..]) == multiset(ds) - multiset{ds[0]};
    assert multiset(es[..i] + es[i + 1..]) == multiset(es) - multiset{es[i]};
  }

  /** The sum at a cell depends only on the multiset of drivers, not on their order. */
  lemma {:induction false} SumAtPermutation(shape: seq<nat>, ds: seq<Driver>, es: seq<Driver>, m: Math, time: real, k: nat)
    requires AllApply(shape, ds) && AllApply(shape, es)
    requires multiset(ds) == multiset(es)
    ensures SumAt(shape, ds, m, time, k) == SumAt(shape, es, m, time, k)
  {
    if ds == [] {
      assert |es| == |multiset(es)| == 0;
    } else {
      var i := MultisetRemoveFirst(ds, es);
      SumAtRemove(shape, es, i, m, time, k);
      SumAtPermutation(shape, ds[1..], es[..i] + es[i + 1..], m, time, k);
    }
  }

  /** Adding the drivers in any order gives the same grid. */
  lemma InjectOrderIndependent(shape: seq<nat>, grid: seq<real>, ds: seq<Driver>, es: seq<Driver>, m: Math, time: real)
    requires |grid| == Size(shape) && AllApply(shape, ds) && AllApply(shape, es)
    requires multiset(ds) == multiset(es)
    ensures Inject(shape, grid, ds, m, time) == Inject(shape, grid, es, m, time)
  {
    forall k | 0 <= k < |grid|
      ensures Inject(shape, grid, ds, m, time)[k] == Inject(shape, grid, es, m, time)[k]
    {
      SumAtPermutation(shape, ds, es, m, time, k);
    }
  }

  /** A cell where no driver sits keeps its value. */
  lemma {:induction false} SumAtElsewhere(shape: seq<nat>, ds: seq<Driver>, m: Math, time: real, k: nat)
    requires AllApply(shape, ds)
    requires forall i :: 0 <= i < |ds| ==> Cell(shape, ds[i].location) != k
    ensures SumAt(shape, ds, m, time, k) == 0.0
  {
    if ds != [] {
      SumAtElsewhere(shape, ds[1..], m, time, k);
    }
  }

  lemma InjectElsewhere(shape: seq<nat>, grid: seq<real>, ds: seq<Driver>, m: Math, time: real, k: nat)
    requires |grid| == Size(shape) && AllApply(shape, ds) && k < |grid|
    requires forall i :: 0 <= i < |ds| ==> Cell(shape, ds[i].location) != k
    ensures Inject(shape, grid, ds, m, time)[k] == grid[k]
  {
    SumAtElsewhere(shape, ds, m, time, k);
  }

  /** `pressure[k] += x` on an array. */
  method AddAt(pressure: array<real>, k: nat, x: real)
    requires k < pressure.Length
    modifies pressure
    ensures pressure[..] == old(pressure[..])[k := old(pressure[k]) + x]
  {
    pressure[k] := pressure[k] + x;
  }

  /** Driver `i`, reached with every driver before it applying, is the first failing one or applies. */
  lemma FirstFailingStep(shape: seq<nat>, ds: seq<Driver>, i: nat)
    requires i < |ds| && i <= FirstFailing(shape, ds)
    ensures !Applies(shape, ds[i]) ==> FirstFailing(shape, ds) == i
    ensures Applies(shape, ds[i]) ==> i + 1 <= FirstFailing(shape, ds)
  {
  }

  /**
   * The loop of `_apply_drivers`: each driver's value added in place at the
   * cell its location selects, a negative coordinate counting from the end of
   * its axis, in list order, until a driver that does not apply raises.
   */
  method AddDrivers(shape: seq<nat>, pressure: array<real>, ds: seq<Driver>, m: Math, time: real)
    returns (r: Result<array<real>, RunError>)
    requires pressure.Length == Size(shape) && Ranked(shape, ds)
    modifies pressure
    ensures r.Ok? <==> AllApply(shape, ds)
    ensures r.Ok? ==> r.value == pressure && pressure[..] == AddInOrder(shape, old(pressure[..]), ds, |ds|, m, time)
    ensures r.Err? ==> var i := FirstFailing(shape, ds);
                       i < |ds| && r.error == Failure(shape, ds[i], m, time)
                       && pressure[..] == AddInOrder(shape, old(pressure[..]), ds, i, m, time)
  {
    ghost var before := pressure[..];
    for i := 0 to |ds|
      invariant i <= FirstFailing(shape, ds)
      invariant pressure[..] == AddInOrder(shape, before, ds, i, m, time)
    {
      FirstFailingStep(shape, ds, i);
      EvaluableIffNumber(ds[i], m, time);
      var v := GetValue(ds[i], m, time);
      if v.Err? {
        return Err(DriverRaised(v.error));
      }
      if !Addressable(shape, ds[i].location) {
        return Err(DriverIndexError);
      }
      if !v.value.Number? {
        return Err(DriverValueNotNumber);
      }
      AddAt(pressure, Cell(shape, ds[i].location), v.value.x);
    }
    return Ok(pressure);
  }

  /** Everything one run depends on besides its history. */
  datatype Scene = Scene(lap: Stencil, m: Math, shape: seq<nat>, gridstep: real, timestep: real,
                         wavespeed: real, drivers: seq<Driver>)

  predicate WellFormed(sc: Scene)
  {
    sc.gridstep != 0.0 && Ranked(sc.shape, sc.drivers)
  }

  /** The grid `_simulation_loop` computes: update, add the drivers at `time`, zero the edges. */
  function Step(sc: Scene, prev: seq<real>, curr: seq<real>, time: real): (r: seq<real>)
    requires WellFormed(sc) && AllApply(sc.shape, sc.drivers)
    requires |prev| == |curr| == Size(sc.shape)
    ensures |r| == Size(sc.shape)
  {
    var laplacian := Laplacian(sc.lap, sc.shape, curr, sc.gridstep);
    var next := Update(prev, curr, laplacian, Courant2(sc.wavespeed, sc.timestep));
    WithEdges(sc.shape, Inject(sc.shape, next, sc.drivers, sc.m, time), 0.0)
  }

  /** The frames after `k` steps. */
  function State(sc: Scene, k: nat): (f: Frames)
    requires WellFormed(sc) && (k == 0 || AllApply(sc.shape, sc.drivers))
    ensures |f.prev| == |f.curr| == Size(sc.shape)
  {
    if k == 0 then Initialize(sc.shape)
    else
      var s := State(sc, k - 1);
      Frames(s.curr, Step(sc, s.prev, s.curr, s.time), s.time + sc.timestep)
  }

  /** After `k` steps the clock reads `k * timestep`, so step `k` adds the drivers at `(k - 1) * timestep`. */
  lemma {:induction false} StateTime(sc: Scene, k: nat)
    requires WellFormed(sc) && (k == 0 || AllApply(sc.shape, sc.drivers))
    ensures State(sc, k).time == k as real * sc.timestep
  {
    if k > 0 {
      StateTime(sc, k - 1);
      assert (k - 1) as real * sc.timestep + sc.timestep == k as real * sc.timestep;
    }
  }

  /** Every frame after the first has zero edges, even where a driver sits on an edge. */
  lemma EdgesAreZero(sc: Scene, k: nat, idx: seq<int>)
    requires WellFormed(sc) && AllApply(sc.shape, sc.drivers) && 0 < k
    requires InBounds(sc.shape, idx) && IsEdge(sc.shape, idx)
    ensures State(sc, k).curr[Offset(sc.shape, idx)] == 0.0
  {
    var s := State(sc, k - 1);
    var laplacian := Laplacian(sc.lap, sc.shape, s.curr, sc.gridstep);
    var next := Update(s.prev, s.curr, laplacian, Courant2(sc.wavespeed, sc.timestep));
    WithEdgesCells(sc.shape, Inject(sc.shape, next, sc.drivers, sc.m, s.time), 0.0, idx);
  }

  /** Without drivers a zero start stays zero in every frame, given that the stencil maps zero to zero. */
  lemma {:induction false} NoDriversStayZero(sc: Scene, k: nat)
    requires WellFormed(sc) && sc.drivers == [] && MapsZeroToZero(sc.lap, sc.shape)
    ensures State(sc, k).prev == Zeros(Size(sc.shape)) && State(sc, k).curr == Zeros(Size(sc.shape))
  {
    if k > 0 {
      NoDriversStayZero(sc, k - 1);
      var z := Zeros(Size(sc.shape));
      LaplacianOfZero(sc.lap, sc.shape, sc.gridstep);
      UpdateOfZero(Size(sc.shape), Courant2(sc.wavespeed, sc.timestep));
      forall j | 0 <= j < Size(sc.shape)
        ensures WithEdges(sc.shape, z, 0.0)[j] == 0.0
      {
      }
    }
  }

  /** The parameter dictionary's values: `gridsize` is a tuple, the others are numbers. */
  datatype ParamValue = TupleParam(items: seq<int>) | ScalarParam(x: real)

  const ParamNames: set<string> := {"gridsize", "gridstep", "duration", "timestep", "wavespeed"}

  datatype AddDriverError = WrongDims | OutOfBounds

  /**
   * The checks of `add_driver` as written: the length check, then
   * `location > gridsize` in Python's lexicographic tuple order.
   */
  function AddDriverCheckAsWritten(gridsize: seq<nat>, dims: nat, location: seq<int>): (r: Result<(), AddDriverError>)
    ensures r == Err(WrongDims) <==> |location| != dims
    ensures r == Err(OutOfBounds) <==> |location| == dims && TupleLess(gridsize, location)
  {
    if |location| != dims then Err(WrongDims)
    else if TupleLess(gridsize, location) then Err(OutOfBounds)
    else Ok(())
  }

  /**
   * The lexicographic check accepts `(0, 99)`, `(16, 16)` and `(-1, 0)` on a
   * 16 x 16 grid: the first two then make `_apply_drivers` raise IndexError,
   * and the third adds into the cell `(15, 0)`.
   */
  lemma AsWrittenAcceptsOutOfRange()
    ensures AddDriverCheckAsWritten([16, 16], 2, [0, 99]).Ok? && !InBounds([16, 16], [0, 99])
    ensures AddDriverCheckAsWritten([16, 16], 2, [16, 16]).Ok? && !InBounds([16, 16], [16, 16])
    ensures AddDriverCheckAsWritten([16, 16], 2, [-1, 0]).Ok? && !InBounds([16, 16], [-1, 0])
    ensures !Addressable([16, 16], [0, 99]) && !Addressable([16, 16], [16, 16])
    ensures Addressable([16, 16], [-1, 0]) && Resolve([16, 16], [-1, 0]) == [15, 0]
  {
    assert !IndexOk(99, 16) && !IndexOk(16, 16);
    var r := Resolve([16, 16], [-1, 0]);
    assert r[0] == 15 && r[1] == 0;
  }

  /** The check `add_driver` evidently intends: one coordinate per axis, each inside its axis. */
  function AddDriverCheck(gridsize: seq<nat>, dims: nat, location: seq<int>): (r: Result<(), AddDriverError>)
    requires dims == |gridsize|
    ensures r == Err(WrongDims) <==> |location| != dims
    ensures r.Ok? <==> InBounds(gridsize, location)
  {
    if |location| != dims then Err(WrongDims)
    else if !InBounds(gridsize, location) then Err(OutOfBounds)
    else Ok(())
  }

  /** Under the corrected check every driver selects its own cell, so no IndexError and no wrap. */
  lemma CorrectedDriversSelectTheirCell(gridsize: seq<nat>, ds: seq<Driver>)
    requires forall i :: 0 <= i < |ds| ==> AddDriverCheck(gridsize, |gridsize|, ds[i].location).Ok?
    ensures forall i :: 0 <= i < |ds| ==>
              Addressable(gridsize, ds[i].location) && InBounds(gridsize, ds[i].location)
              && Cell(gridsize, ds[i].location) == Offset(gridsize, ds[i].location)
  {
    forall i | 0 <= i < |ds|
      ensures Addressable(gridsize, ds[i].location) && InBounds(gridsize, ds[i].location)
              && Cell(gridsize, ds[i].location) == Offset(gridsize, ds[i].location)
    {
      ResolveInBounds(gridsize, ds[i].location);
    }
  }

  /** Every location the corrected check accepts, the written one accepts too. */
  lemma CorrectedCheckIsStricter(gridsize: seq<nat>, location: seq<int>)
    requires AddDriverCheck(gridsize, |gridsize|, location).Ok?
    ensures AddDriverCheckAsWritten(gridsize, |gridsize|, location).Ok?
  {
    if |gridsize| > 0 {
      assert location[0] < gridsize[0];
    }
  }

  class Simulate {
    const gridsize: seq<nat>
    const gridstep: real
    const duration: real
    const timestep: real
    const wavespeed: real
    const dims: nat
    const totalIterations: nat
    const history: array<seq<real>>
    var drivers: seq<Driver>

    predicate Valid()
      reads this
    {
      && dims == |gridsize|
      && history.Length == totalIterations
      && Ranked(gridsize, drivers)
    }

    /** `__init__` once the two divisions by `timestep` have succeeded; see `Create`. */
    constructor (gridsize: seq<nat>, gridstep: real, duration: real, timestep: real, wavespeed: real)
      requires TotalIterations(duration, timestep).Ok? && TotalIterations(duration, timestep).value >= 0
      ensures Valid()
      ensures this.gridsize == gridsize && this.gridstep == gridstep && this.duration == duration
      ensures this.timestep == timestep && this.wavespeed == wavespeed
      ensures totalIterations == TotalIterations(duration, timestep).value
      ensures forall i :: 0 <= i < history.Length ==> history[i] == Zeros(Size(gridsize))
      ensures drivers == []
      ensures fresh(history)
    {
      this.gridsize := gridsize;
      this.gridstep := gridstep;
      this.duration := duration;
      this.timestep := timestep;
      this.wavespeed := wavespeed;
      dims := |gridsize|;
      var n := TotalIterations(duration, timestep).value;
      totalIterations := n;
      var zero := Zeros(Size(gridsize));
      history := new seq<real>[n](_ => zero);
      drivers := [];
    }

    /**
     * `Simulate(...)`: a zero time step raises ZeroDivisionError and a
     * negative frame count makes `np.zeros` raise ValueError.
     */
    static method Create(gridsize: seq<nat>, gridstep: real, duration: real, timestep: real, wavespeed: real)
      returns (r: Result<Simulate, InitError>)
      ensures r.Err? <==> timestep == 0.0 || TotalIterations(duration, timestep).value < 0
      ensures r.Err? ==> (r.error == DivisionByZero <==> timestep == 0.0)
      ensures r.Ok? ==> fresh(r.value) && fresh(r.value.history) && r.value.Valid()
      ensures r.Ok? ==> r.value.gridsize == gridsize && r.value.drivers == []
      ensures r.Ok? ==> r.value.gridstep == gridstep && r.value.duration == duration
      ensures r.Ok? ==> r.value.timestep == timestep && r.value.wavespeed == wavespeed
      ensures r.Ok? ==> r.value.totalIterations == TotalIterations(duration, timestep).value
      ensures r.Ok? ==> forall i :: 0 <= i < r.value.history.Length ==> r.value.history[i] == Zeros(Size(gridsize))
    {
      var n := TotalIterations(duration, timestep);
      if n.Err? {
        return Err(DivisionByZero);
      }
      if n.value < 0 {
        return Err(NegativeDimensions);
      }
      var s := new Simulate(gridsize, gridstep, duration, timestep, wavespeed);
      return Ok(s);
    }

    /** `get_params`: the five constructor parameters under their own names. */
    function GetParams(): (r: map<string, ParamValue>)
      ensures r.Keys == ParamNames
      ensures r["gridsize"] == TupleParam(gridsize)
      ensures forall name :: name in r && name != "gridsize" ==> r[name].ScalarParam?
      ensures r["gridstep"] == ScalarParam(gridstep) && r["duration"] == ScalarParam(duration)
      ensures r["timestep"] == ScalarParam(timestep) && r["wavespeed"] == ScalarParam(wavespeed)
    {
      map["gridsize" := TupleParam(gridsize), "gridstep" := ScalarParam(gridstep),
          "duration" := ScalarParam(duration), "timestep" := ScalarParam(timestep),
          "wavespeed" := ScalarParam(wavespeed)]
    }

    /** `check_stability`: `_is_stable` is `Leapfrog.Stability`; reports whether it warned, and changes nothing. */
    method CheckStability() returns (warned: Result<bool, ArithmeticError>)
      ensures warned.Err? <==> gridstep == 0.0
      ensures warned.Ok? ==> (warned.value <==> !IsStable(Sigma(wavespeed, timestep, gridstep).value, dims))
    {
      var stable := Stability(wavespeed, timestep, gridstep, dims);
      if stable.Err? {
        return Err(stable.error);
      }
      warned := Ok(!stable.value);
    }

    /** `add_driver` as written: the length check, then the lexicographic `location > gridsize`. */
    method AddDriver(driver: Driver) returns (r: Result<(), AddDriverError>)
      requires Valid()
      modifies this
      ensures Valid()
      ensures r == AddDriverCheckAsWritten(gridsize, dims, driver.location)
      ensures r.Ok? ==> drivers == old(drivers) + [driver]
      ensures r.Err? ==> drivers == old(drivers)
    {
      r := AddDriverCheckAsWritten(gridsize, dims, driver.location);
      if r.Ok? {
        drivers := drivers + [driver];
      }
    }

    function SceneOf(lap: Stencil, m: Math): (sc: Scene)
      reads this
      ensures sc.drivers == drivers && sc.shape == gridsize
    {
      Scene(lap, m, gridsize, gridstep, timestep, wavespeed, drivers)
    }

    /**
     * `_apply_boundary_conditions`: the edges set to zero in place and the
     * same array returned, or IndexError for a grid with an axis of length 0.
     */
    method ApplyBoundaryConditions(pressure: array<real>) returns (r: Result<array<real>, RunError>)
      requires pressure.Length == Size(gridsize)
      modifies pressure
      ensures r.Err? <==> HasEmptyAxis(gridsize)
      ensures r.Err? ==> r.error == EdgeIndexError && pressure[..] == old(pressure[..])
      ensures r.Ok? ==> r.value == pressure && pressure[..] == WithEdges(gridsize, old(pressure[..]), 0.0)
    {
      var cleared := SetEdgeValues(gridsize, pressure, 0.0);
      if cleared.Err? {
        return Err(EdgeIndexError);
      }
      return Ok(cleared.value);
    }

    /**
     * `_apply_drivers`: each driver's value is added in place at the cell its
     * location selects, in list order; the first driver that does not apply
     * raises, leaving the values of the drivers before it added.
     */
    method ApplyDrivers(pressure: array<real>, m: Math, time: real) returns (r: Result<array<real>, RunError>)
      requires Valid() && pressure.Length == Size(gridsize)
      modifies pressure
      ensures r.Ok? <==> AllApply(gridsize, drivers)
      ensures r.Ok? ==> r.value == pressure && pressure[..] == AddInOrder(gridsize, old(pressure[..]), drivers, |drivers|, m, time)
      ensures r.Err? ==> var i := FirstFailing(gridsize, drivers);
                         i < |drivers| && r.error == Failure(gridsize, drivers[i], m, time)
                         && pressure[..] == AddInOrder(gridsize, old(pressure[..]), drivers, i, m, time)
    {
      r := AddDrivers(gridsize, pressure, drivers, m, time);
    }

    /** `_simulation_loop`: one step from `(prev, curr, time)`; it changes no field. */
    method SimulationLoop(lap: Stencil, m: Math, prev: seq<real>, curr: seq<real>, time: real)
      returns (r: Result<Frames, RunError>)
      requires Valid() && gridstep != 0.0
      requires |prev| == |curr| == Size(gridsize)
      ensures r.Ok? <==> StepSucceeds(gridsize, drivers)
      ensures r.Ok? ==> r.value == Frames(curr, Step(SceneOf(lap, m), prev, curr, time), time + timestep)
      ensures r.Err? ==> r.error == StepFailure(gridsize, drivers, m, time)
    {
      var laplacian := Laplacian(lap, gridsize, curr, gridstep);
      var next := Update(prev, curr, laplacian, Courant2(wavespeed, timestep));
      var pressure := new real[|next|](k requires 0 <= k < |next| => next[k]);
      assert pressure[..] == next;
      var applied := ApplyDrivers(pressure, m, time);
      if applied.Err? {
        return Err(applied.error);
      }
      AddInOrderIsInject(gridsize, next, drivers, |drivers|, m, time);
      assert drivers[..|drivers|] == drivers;
      var clamped := ApplyBoundaryConditions(pressure);
      if clamped.Err? {
        return Err(clamped.error);
      }
      return Ok(Frames(curr, clamped.value[..], time + timestep));
    }

    /**
     * `run`: row 0 of the history is the zero grid and row `i` the grid after
     * `i` steps. With no history row the first assignment raises; a driver
     * that does not apply, or an axis of length 0, raises in the first step.
     */
    method Run(lap: Stencil, m: Math) returns (r: Result<array<seq<real>>, RunError>)
      requires Valid() && gridstep != 0.0
      modifies history
      ensures Valid()
      ensures r.Err? <==> totalIterations == 0 || (totalIterations > 1 && !StepSucceeds(gridsize, drivers))
      ensures r.Ok? ==> r.value == history
      ensures r.Ok? ==> forall i :: 0 <= i < totalIterations ==> history[i] == State(SceneOf(lap, m), i).curr
      ensures r.Err? && totalIterations > 0 ==>
                r.error == StepFailure(gridsize, drivers, m, 0.0)
                && history[0] == Zeros(Size(gridsize))
                && forall i :: 1 <= i < totalIterations ==> history[i] == old(history[i])
      ensures totalIterations == 0 ==> r == Err(NoHistoryRow)
    {
      var f := Initialize(gridsize);
      if history.Length == 0 {
        return Err(NoHistoryRow);
      }
      history[0] := f.curr;
      r := RunSteps(lap, m);
    }

    /** `self.history[i] = row`: one row written, every other row kept. */
    method Record(i: nat, row: seq<real>)
      requires i < history.Length
      modifies history
      ensures history[i] == row
      ensures forall k :: 0 <= k < history.Length && k != i ==> history[k] == old(history[k])
    {
      history[i] := row;
    }

    /** One pass of the for-loop of `run`: step `iteration`, then its history row. */
    method Advance(lap: Stencil, m: Math, iteration: nat, f: Frames) returns (r: Result<Frames, RunError>)
      requires Valid() && gridstep != 0.0 && 0 < iteration < history.Length
      requires iteration > 1 ==> StepSucceeds(gridsize, drivers)
      requires f == State(SceneOf(lap, m), iteration - 1)
      modifies history
      ensures r.Ok? <==> StepSucceeds(gridsize, drivers)
      ensures r.Ok? ==> r.value == State(SceneOf(lap, m), iteration) && history[iteration] == r.value.curr
      ensures r.Ok? ==> forall i :: 0 <= i < history.Length && i != iteration ==> history[i] == old(history[i])
      ensures r.Err? ==> iteration == 1 && r.error == StepFailure(gridsize, drivers, m, 0.0)
      ensures r.Err? ==> forall i :: 0 <= i < history.Length ==> history[i] == old(history[i])
    {
      var step := SimulationLoop(lap, m, f.prev, f.curr, f.time);
      if step.Err? {
        StateTime(SceneOf(lap, m), 0);
        return Err(step.error);
      }
      Record(iteration, step.value.curr);
      return Ok(step.value);
    }

    /** The for-loop of `run`, with row 0 of the history already written. */
    method RunSteps(lap: Stencil, m: Math) returns (r: Result<array<seq<real>>, RunError>)
      requires Valid() && gridstep != 0.0 && history.Length > 0
      requires history[0] == Zeros(Size(gridsize))
      modifies history
      ensures Valid()
      ensures r.Err? <==> totalIterations > 1 && !StepSucceeds(gridsize, drivers)
      ensures r.Ok? ==> r.value == history
      ensures r.Ok? ==> forall i :: 0 <= i < totalIterations ==> history[i] == State(SceneOf(lap, m), i).curr
      ensures r.Err? ==> r.error == StepFailure(gridsize, drivers, m, 0.0)
      ensures r.Err? ==> forall i :: 0 <= i < totalIterations ==> history[i] == old(history[i])
    {
      ghost var sc := SceneOf(lap, m);
      var f := Initialize(gridsize);
      for iteration := 1 to totalIterations
        invariant iteration > 1 ==> StepSucceeds(gridsize, drivers)
        invariant f == State(sc, iteration - 1)
        invariant forall i :: 0 <= i < iteration ==> history[i] == State(sc, i).curr
        invariant forall i :: iteration <= i < totalIterations ==> history[i] == old(history[i])
      {
        var step := Advance(lap, m, iteration, f);
        if step.Err? {
          return Err(step.error);
        }
        f := step.value;
      }
      return Ok(history);
    }
  }
}
