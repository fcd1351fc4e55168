/**
 * The editor state of the interactive obstacle and driver editor
 * (simulation/interactive_setup.py) for a two-dimensional grid of
 * `width` by `height` cells.
 *
 * The figure, the colour map and the redraws are not modelled. Mouse
 * coordinates arrive already rounded to integers, and the events that
 * `plt.show()` delivers arrive as a sequence (`Setup`).
 */
module Interactive {
  import opened Wrappers

  /** `(b - ix)**2 + (a - iy)**2 <= brush**2`: cell `[a][b]` of the disk mask centred on `(ix, iy)`. */
  predicate InBrush(a: int, b: int, ix: int, iy: int, brush: int)
  {
    (b - ix) * (b - ix) + (a - iy) * (a - iy) <= brush * brush
  }

  /** The brush size after a scroll step: up adds one, anything else subtracts one but stops at 0. */
  function Scrolled(brush: int, step: real): (r: int)
    ensures step > 0.0 ==> r == brush + 1
    ensures step <= 0.0 ==> r >= 0 && (brush >= 1 ==> r == brush - 1) && (brush <= 1 ==> r == 0)
  {
    if step > 0.0 then brush + 1 else if brush - 1 > 0 then brush - 1 else 0
  }

  /** Scrolling down never makes the brush negative, so once it is `>= 0` it stays so. */
  lemma {:induction false} ScrollKeepsBrushNonNegative(brush: int, steps: seq<real>)
    requires brush >= 0
    ensures ScrolledAll(brush, steps) >= 0
    decreases |steps|
  {
    if steps != [] {
      ScrollKeepsBrushNonNegative(Scrolled(brush, steps[0]), steps[1..]);
    }
  }

  /** The brush size after a run of scroll steps inside the axes. */
  function ScrolledAll(brush: int, steps: seq<real>): int
    decreases |steps|
  {
    if steps == [] then brush else ScrolledAll(Scrolled(brush, steps[0]), steps[1..])
  }

  predicate NoDuplicates<T(==)>(s: seq<T>)
  {
    forall i, j :: 0 <= i < j < |s| ==> s[i] != s[j]
  }

  /** The right-click rule: append a location only when it is not there yet. */
  function AddLocation(locations: seq<(int, int)>, loc: (int, int)): (r: seq<(int, int)>)
    ensures loc in r && forall l :: l in r <==> l in locations || l == loc
    ensures NoDuplicates(locations) ==> NoDuplicates(r)
    ensures loc !in locations ==> r == locations + [loc]
    ensures loc in locations ==> r == locations
  {
    if loc in locations then locations else locations + [loc]
  }

  datatype EditorError = MaskShapeMismatch   // numpy refuses a boolean mask of another shape

  /** A mouse or scroll event, with its coordinates rounded. */
  datatype Event =
    | Press(inAxes: bool, x: int, y: int, button: int)
    | Release(button: int)
    | Motion(inAxes: bool, x: int, y: int)
    | Scroll(inAxes: bool, step: real)

  /** The editor's state as a value: brush size, drawing flag, obstacle grid by cells `[a][b]`, driver list. */
  datatype Editor = Editor(brush: int, drawing: bool, grid: seq<seq<int>>, locations: seq<(int, int)>)

  /** The grid has `width` rows of `height` cells, each 0 or 1, and no driver location is listed twice. */
  predicate Consistent(width: nat, height: nat, s: Editor)
  {
    && |s.grid| == width
    && (forall a :: 0 <= a < width ==> |s.grid[a]| == height)
    && (forall a, b :: 0 <= a < width && 0 <= b < height ==> s.grid[a][b] == 0 || s.grid[a][b] == 1)
    && NoDuplicates(s.locations)
  }

  /** The grid with every cell of the disk of radius `brush` around `(ix, iy)` set to 1. */
  function Paint(g: seq<seq<int>>, ix: int, iy: int, brush: int): (r: seq<seq<int>>)
    ensures |r| == |g| && forall a :: 0 <= a < |g| ==> |r[a]| == |g[a]|
  {
    seq(|g|, a requires 0 <= a < |g| =>
      seq(|g[a]|, b requires 0 <= b < |g[a]| => if InBrush(a, b, ix, iy, brush) then 1 else g[a][b]))
  }

  /**
   * `_draw_obstacle_at_point` on the value: a point outside the grid, and a
   * mask numpy refuses on a grid that is not square, leave the grid as it is.
   */
  function Draw(width: nat, height: nat, s: Editor, ix: int, iy: int): Editor
  {
    if 0 <= ix < width && 0 <= iy < height && width == height then s.(grid := Paint(s.grid, ix, iy, s.brush)) else s
  }

  /**
   * One event as the connected callbacks handle it. When the painting in
   * `on_press` raises, drawing has already been switched on.
   */
  function Apply(width: nat, height: nat, s: Editor, e: Event): Editor
  {
    match e
    case Press(inAxes, x, y, button) =>
      if !inAxes then s
      else if button == 1 then Draw(width, height, s.(drawing := true), x, y)
      else if button == 3 then s.(locations := AddLocation(s.locations, (x, y)))
      else s
    case Release(button) => if button == 1 then s.(drawing := false) else s
    case Motion(inAxes, x, y) => if s.drawing && inAxes then Draw(width, height, s, x, y) else s
    case Scroll(inAxes, step) => if inAxes then s.(brush := Scrolled(s.brush, step)) else s
  }

  /** The events handled in order. */
  function ApplyAll(width: nat, height: nat, s: Editor, events: seq<Event>): Editor
    decreases |events|
  {
    if events == [] then s
    else Apply(width, height, ApplyAll(width, height, s, events[..|events| - 1]), events[|events| - 1])
  }

  /** The scroll steps taken inside the axes, in order. */
  function ScrollSteps(events: seq<Event>): seq<real>
    decreases |events|
  {
    if events == [] then []
    else
      var e := events[|events| - 1];
      ScrollSteps(events[..|events| - 1]) + (if e.Scroll? && e.inAxes then [e.step] else [])
  }

  /** The locations right-clicked inside the axes, in order. */
  function RightClicks(events: seq<Event>): seq<(int, int)>
    decreases |events|
  {
    if events == [] then []
    else
      var e := events[|events| - 1];
      RightClicks(events[..|events| - 1]) + (if e.Press? && e.inAxes && e.button == 3 then [(e.x, e.y)] else [])
  }

  /**
   * Every event keeps the grid's shape, its 0/1 cells and the driver list
   * free of repeats, leaves painted cells painted and listed drivers listed.
   */
  lemma ApplyKeeps(width: nat, height: nat, s: Editor, e: Event)
    requires Consistent(width, height, s)
    ensures var t := Apply(width, height, s, e);
            && Consistent(width, height, t)
            && (forall a, b :: 0 <= a < width && 0 <= b < height && s.grid[a][b] == 1 ==> t.grid[a][b] == 1)
            && (forall l :: l in s.locations ==> l in t.locations)
  {
  }

  /** Any run of events keeps the editor consistent, painted cells painted and listed drivers listed. */
  lemma {:induction false} ApplyAllKeeps(width: nat, height: nat, s: Editor, events: seq<Event>)
    requires Consistent(width, height, s)
    ensures var t := ApplyAll(width, height, s, events);
            && Consistent(width, height, t)
            && (forall a, b :: 0 <= a < width && 0 <= b < height && s.grid[a][b] == 1 ==> t.grid[a][b] == 1)
            && (forall l :: l in s.locations ==> l in t.locations)
    decreases |events|
  {
    if events != [] {
      var front := events[..|events| - 1];
      ApplyAllKeeps(width, height, s, front);
      ApplyKeeps(width, height, ApplyAll(width, height, s, front), events[|events| - 1]);
    }
  }

  lemma {:induction false} ScrolledAllAppend(brush: int, steps: seq<real>, step: real)
    ensures ScrolledAll(brush, steps + [step]) == Scrolled(ScrolledAll(brush, steps), step)
    decreases |steps|
  {
    if steps != [] {
      assert (steps + [step])[1..] == steps[1..] + [step];
      ScrolledAllAppend(Scrolled(brush, steps[0]), steps[1..], step);
    } else {
      assert ([] + [step])[1..] == [];
    }
  }

  /** The brush size after a run of events depends only on the scroll steps inside the axes. */
  lemma {:induction false} ApplyAllBrush(width: nat, height: nat, s: Editor, events: seq<Event>)
    ensures ApplyAll(width, height, s, events).brush == ScrolledAll(s.brush, ScrollSteps(events))
    decreases |events|
  {
    if events != [] {
      var front := events[..|events| - 1];
      var e := events[|events| - 1];
      ApplyAllBrush(width, height, s, front);
      if e.Scroll? && e.inAxes {
        ScrolledAllAppend(s.brush, ScrollSteps(front), e.step);
      } else {
        assert ScrollSteps(events) == ScrollSteps(front) + [] == ScrollSteps(front);
        assert ApplyAll(width, height, s, events).brush == ApplyAll(width, height, s, front).brush;
      }
    }
  }

  /** After a run of events, the driver list holds the old drivers and every right-click inside the axes, and nothing else. */
  lemma {:induction false} ApplyAllLocations(width: nat, height: nat, s: Editor, events: seq<Event>)
    ensures forall l :: l in ApplyAll(width, height, s, events).locations <==> l in s.locations || l in RightClicks(events)
    decreases |events|
  {
    if events != [] {
      ApplyAllLocations(width, height, s, events[..|events| - 1]);
    }
  }

  class InteractiveSetup {
    const width: nat
    const height: nat
    var brushSize: int
    const obstacleGrid: array2<int>
    var drawing: bool
    var driverLocations: seq<(int, int)>

    /** The grid has the editor's shape, holds only 0 and 1, and no driver location is listed twice. */
    predicate Valid()
      reads this, obstacleGrid
    {
      && obstacleGrid.Length0 == width && obstacleGrid.Length1 == height
      && (forall a, b :: 0 <= a < width && 0 <= b < height ==> obstacleGrid[a, b] == 0 || obstacleGrid[a, b] == 1)
      && NoDuplicates(driverLocations)
    }

    /** The editor's current state as a value. */
    function Snapshot(): (s: Editor)
      requires Valid()
      reads this, obstacleGrid
      ensures Consistent(width, height, s)
      ensures s.brush == brushSize && s.drawing == drawing && s.locations == driverLocations
      ensures forall a, b :: 0 <= a < width && 0 <= b < height ==> s.grid[a][b] == obstacleGrid[a, b]
    {
      Editor(brushSize, drawing,
             seq(obstacleGrid.Length0, a requires 0 <= a < obstacleGrid.Length0 reads obstacleGrid =>
               seq(obstacleGrid.Length1, b requires 0 <= b < obstacleGrid.Length1 reads obstacleGrid => obstacleGrid[a, b])),
             driverLocations)
    }

    /** A value that agrees with the editor field by field and cell by cell is its snapshot. */
    lemma SnapshotIs(s: Editor)
      requires Valid() && Consistent(width, height, s)
      requires s.brush == brushSize && s.drawing == drawing && s.locations == driverLocations
      requires forall a, b :: 0 <= a < width && 0 <= b < height ==> s.grid[a][b] == obstacleGrid[a, b]
      ensures Snapshot() == s
    {
      var t := Snapshot();
      forall a | 0 <= a < width
        ensures t.grid[a] == s.grid[a]
      {
      }
    }

    /** `__init__(gridsize, brush_size)`: an all-zero grid, no drivers, not drawing. */
    constructor (width: nat, height: nat, brushSize: int)
      ensures Valid() && fresh(obstacleGrid)
      ensures this.width == width && this.height == height && this.brushSize == brushSize
      ensures forall a, b :: 0 <= a < width && 0 <= b < height ==> obstacleGrid[a, b] == 0
      ensures driverLocations == [] && !drawing
    {
      this.width := width;
      this.height := height;
      this.brushSize := brushSize;
      obstacleGrid := new int[width, height]((a, b) => 0);
      driverLocations := [];
      drawing := false;
    }

    /**
     * `_draw_obstacle_at_point(ix, iy)`: outside the grid nothing happens;
     * inside, every cell `[a][b]` of the disk mask becomes 1. The mask has
     * shape `(height, width)`, so only a square grid accepts it.
     */
    method DrawObstacleAtPoint(ix: int, iy: int) returns (r: Result<(), EditorError>)
      requires Valid()
      modifies obstacleGrid
      ensures Valid()
      ensures r.Err? <==> 0 <= ix < width && 0 <= iy < height && width != height
      ensures !(0 <= ix < width && 0 <= iy < height) || r.Err? ==>
                forall a, b :: 0 <= a < width && 0 <= b < height ==> obstacleGrid[a, b] == old(obstacleGrid[a, b])
      ensures 0 <= ix < width && 0 <= iy < height && r.Ok? ==>
                forall a, b :: 0 <= a < width && 0 <= b < height ==>
                  obstacleGrid[a, b] == if InBrush(a, b, ix, iy, brushSize) then 1 else old(obstacleGrid[a, b])
    {
      if !(0 <= ix < width && 0 <= iy < height) {
        return Ok(());
      }
      if width != height {
        return Err(MaskShapeMismatch);
      }
      var brush := brushSize;
      forall a, b | 0 <= a < width && 0 <= b < height && InBrush(a, b, ix, iy, brush) {
        obstacleGrid[a, b] := 1;
      }
      return Ok(());
    }

    /** `on_press`: ignored outside the axes; button 1 starts drawing and paints, button 3 adds a driver. */
    method OnPress(inAxes: bool, ix: int, iy: int, button: int) returns (r: Result<(), EditorError>)
      requires Valid()
      modifies this, obstacleGrid
      ensures Valid() && brushSize == old(brushSize)
      ensures !inAxes || button != 1 ==> r.Ok?
      ensures !(inAxes && button == 1 && 0 <= ix < width && 0 <= iy < height) || r.Err? ==>
                forall a, b :: 0 <= a < width && 0 <= b < height ==> obstacleGrid[a, b] == old(obstacleGrid[a, b])
      ensures !inAxes ==> drawing == old(drawing) && driverLocations == old(driverLocations)
      ensures inAxes && button == 1 ==> drawing && driverLocations == old(driverLocations)
      ensures inAxes && button == 3 ==> drawing == old(drawing) && driverLocations == AddLocation(old(driverLocations), (ix, iy))
      ensures inAxes && button != 1 && button != 3 ==> drawing == old(drawing) && driverLocations == old(driverLocations)
      ensures inAxes && button == 1 ==> (r.Err? <==> 0 <= ix < width && 0 <= iy < height && width != height)
      ensures inAxes && button == 1 && 0 <= ix < width && 0 <= iy < height && r.Ok? ==>
                forall a, b :: 0 <= a < width && 0 <= b < height ==>
                  obstacleGrid[a, b] == if InBrush(a, b, ix, iy, brushSize) then 1 else old(obstacleGrid[a, b])
    {
      if !inAxes {
        return Ok(());
      }
      if button == 1 {
        drawing := true;
        r := DrawObstacleAtPoint(ix, iy);
      } else {
        if button == 3 {
          driverLocations := AddLocation(driverLocations, (ix, iy));
        }
        r := Ok(());
      }
    }

    /** `on_release`: releasing button 1 stops drawing; nothing else changes. */
    method OnRelease(button: int)
      modifies this
      ensures drawing == (old(drawing) && button != 1)
      ensures brushSize == old(brushSize) && driverLocations == old(driverLocations)
    {
      if button == 1 {
        drawing := false;
      }
    }

    /** `on_motion`: paints only while drawing and inside the axes. */
    method OnMotion(inAxes: bool, ix: int, iy: int) returns (r: Result<(), EditorError>)
      requires Valid()
      modifies obstacleGrid
      ensures Valid()
      ensures !(drawing && inAxes) ==> r.Ok?
      ensures !(drawing && inAxes && 0 <= ix < width && 0 <= iy < height) || r.Err? ==>
                forall a, b :: 0 <= a < width && 0 <= b < height ==> obstacleGrid[a, b] == old(obstacleGrid[a, b])
      ensures drawing && inAxes ==> (r.Err? <==> 0 <= ix < width && 0 <= iy < height && width != height)
      ensures drawing && inAxes && 0 <= ix < width && 0 <= iy < height && r.Ok? ==>
                forall a, b :: 0 <= a < width && 0 <= b < height ==>
                  obstacleGrid[a, b] == if InBrush(a, b, ix, iy, brushSize) then 1 else old(obstacleGrid[a, b])
    {
      if drawing && inAxes {
        r := DrawObstacleAtPoint(ix, iy);
      } else {
        r := Ok(());
      }
    }

    /** `on_scroll`: ignored outside the axes; otherwise the brush grows or shrinks by one. */
    method OnScroll(inAxes: bool, step: real)
      modifies this
      ensures brushSize == if inAxes then Scrolled(old(brushSize), step) else old(brushSize)
      ensures drawing == old(drawing) && driverLocations == old(driverLocations)
    {
      if !inAxes {
        return;
      }
      if step > 0.0 {
        brushSize := brushSize + 1;
      } else {
        brushSize := if 0 > brushSize - 1 then 0 else brushSize - 1;
      }
    }

    /**
     * `_get_combined_display_grid`: a copy of the obstacle grid in which
     * every driver location inside the grid is 2. The obstacle grid itself
     * is left as it is.
     */
    method CombinedDisplayGrid() returns (combined: array2<int>)
      requires Valid()
      ensures fresh(combined) && combined.Length0 == width && combined.Length1 == height
      ensures forall x, y :: 0 <= x < width && 0 <= y < height ==>
                combined[x, y] == if (x, y) in driverLocations then 2 else obstacleGrid[x, y]
      ensures forall x, y :: 0 <= x < width && 0 <= y < height ==> 0 <= combined[x, y] <= 2
    {
      combined := new int[width, height];
      forall x, y | 0 <= x < width && 0 <= y < height {
        combined[x, y] := obstacleGrid[x, y];
      }
      for i := 0 to |driverLocations|
        invariant forall x, y :: 0 <= x < width && 0 <= y < height ==>
                    combined[x, y] == if (x, y) in driverLocations[..i] then 2 else obstacleGrid[x, y]
      {
        var (x, y) := driverLocations[i];
        if 0 <= x < width && 0 <= y < height {
          combined[x, y] := 2;
        }
      }
      assert driverLocations[..|driverLocations|] == driverLocations;
    }

    /** One event as the connected callbacks handle it; a callback that raises is reported and skipped. */
    method Handle(e: Event)
      requires Valid()
      modifies this, obstacleGrid
      ensures Valid()
      ensures forall a, b :: 0 <= a < width && 0 <= b < height && old(obstacleGrid[a, b]) == 1 ==> obstacleGrid[a, b] == 1
      ensures forall l :: l in old(driverLocations) ==> l in driverLocations
      ensures !e.Scroll? ==> brushSize == old(brushSize)
      ensures e.Scroll? ==> brushSize == if e.inAxes then Scrolled(old(brushSize), e.step) else old(brushSize)
      ensures Snapshot() == Apply(width, height, old(Snapshot()), e)
    {
      ghost var s := Snapshot();
      match e {
        case Press(inAxes, x, y, button) =>
          var _ := OnPress(inAxes, x, y, button);
        case Release(button) =>
          OnRelease(button);
        case Motion(inAxes, x, y) =>
          var _ := OnMotion(inAxes, x, y);
        case Scroll(inAxes, step) =>
          OnScroll(inAxes, step);
      }
      ApplyKeeps(width, height, s, e);
      SnapshotIs(Apply(width, height, s, e));
    }

    /**
     * `setup()`: handles the events in order, then returns the obstacle
     * grid and the driver list themselves. Painted cells stay painted and
     * added drivers stay listed.
     */
    method Setup(events: seq<Event>) returns (grid: array2<int>, locations: seq<(int, int)>)
      requires Valid()
      modifies this, obstacleGrid
      ensures Valid() && grid == obstacleGrid && locations == driverLocations
      ensures forall a, b :: 0 <= a < width && 0 <= b < height && old(obstacleGrid[a, b]) == 1 ==> grid[a, b] == 1
      ensures forall l :: l in old(driverLocations) ==> l in locations
      ensures Snapshot() == ApplyAll(width, height, old(Snapshot()), events)
    {
      ghost var s := Snapshot();
      for i := 0 to |events|
        invariant Valid()
        invariant Snapshot() == ApplyAll(width, height, s, events[..i])
        invariant forall a, b :: 0 <= a < width && 0 <= b < height && old(obstacleGrid[a, b]) == 1 ==> obstacleGrid[a, b] == 1
        invariant forall l :: l in old(driverLocations) ==> l in driverLocations
      {
        Handle(events[i]);
        assert events[..i + 1][..i] == events[..i];
      }
      assert events[..|events|] == events;
      return obstacleGrid, driverLocations;
    }
  }
}
