/**
 * Edge-cell geometry of N-dimensional arrays (utils.py).
 *
 * An N-dimensional array of shape `shape` is held as a flat row-major
 * sequence of `Size(shape)` cells; an index is a tuple of coordinates, one
 * per axis. A cell lies on the edge when some coordinate is 0 or the last
 * index of its axis.
 */
module Grid {
  import opened Wrappers
  import Arith

  /** Number of cells of an array of the given shape. */
  function Size(shape: seq<nat>): nat
  {
    if |shape| == 0 then 1 else Arith.Mul(shape[0], Size(shape[1..]))
  }

  /** `idx` has one coordinate per axis and each lies in its axis' range. */
  predicate InBounds(shape: seq<nat>, idx: seq<int>)
  {
    |idx| == |shape| && forall k :: 0 <= k < |idx| ==> 0 <= idx[k] < shape[k]
  }

  /** numpy accepts the integer `c` on an axis of `n` cells when `-n <= c < n`. */
  predicate IndexOk(c: int, n: nat)
  {
    -(n as int) <= c < n as int
  }

  /** The cell numpy's integer `c` denotes on an axis of `n` cells: a negative one counts from the end. */
  function Wrap(c: int, n: nat): (r: int)
    requires IndexOk(c, n)
    ensures 0 <= r < n && (r == c || r == c + n as int)
  {
    if c < 0 then c + n as int else c
  }

  /** `arr[loc]` with one integer per axis selects a cell rather than raising IndexError. */
  predicate Addressable(shape: seq<nat>, loc: seq<int>)
  {
    |loc| == |shape| && forall k :: 0 <= k < |loc| ==> IndexOk(loc[k], shape[k])
  }

  /** The index of the cell `arr[loc]` selects. */
  function Resolve(shape: seq<nat>, loc: seq<int>): (idx: seq<int>)
    requires Addressable(shape, loc)
    ensures InBounds(shape, idx)
    ensures forall k :: 0 <= k < |idx| ==> idx[k] == Wrap(loc[k], shape[k])
  {
    seq(|loc|, k requires 0 <= k < |loc| => Wrap(loc[k], shape[k]))
  }

  /** An in-bounds index is addressable and denotes itself; only negative coordinates move. */
  lemma ResolveInBounds(shape: seq<nat>, loc: seq<int>)
    requires InBounds(shape, loc)
    ensures Addressable(shape, loc) && Resolve(shape, loc) == loc
  {
  }

  /** Some axis has no cells, so every integer index on it raises IndexError. */
  predicate HasEmptyAxis(shape: seq<nat>)
  {
    exists k :: 0 <= k < |shape| && shape[k] == 0
  }

  /** An axis of length 0 is exactly what makes an array cell-less. */
  lemma {:induction false} EmptyAxisIffNoCells(shape: seq<nat>)
    ensures HasEmptyAxis(shape) <==> Size(shape) == 0
  {
    if |shape| > 0 {
      EmptyAxisIffNoCells(shape[1..]);
      Arith.MulZero(shape[0], Size(shape[1..]));
      assert HasEmptyAxis(shape) <==> shape[0] == 0 || HasEmptyAxis(shape[1..]) by {
        if HasEmptyAxis(shape[1..]) {
          var k :| 0 <= k < |shape[1..]| && shape[1..][k] == 0;
          assert shape[k + 1] == 0;
        }
        if HasEmptyAxis(shape) {
          var k :| 0 <= k < |shape| && shape[k] == 0;
          if k > 0 {
            assert shape[1..][k - 1] == 0;
          }
        }
      }
    }
  }

  /** Row-major position of an in-bounds index in the flat cell sequence. */
  function Offset(shape: seq<nat>, idx: seq<int>): (r: nat)
    requires InBounds(shape, idx)
    ensures r < Size(shape)
  {
    if |shape| == 0 then 0
    else
      assert InBounds(shape[1..], idx[1..]);
      var inner := Offset(shape[1..], idx[1..]);
      Arith.MulStep(idx[0], shape[0], Size(shape[1..]), inner);
      Arith.Mul(idx[0], Size(shape[1..])) + inner
  }

  /** The flat cell `arr[loc]` selects. */
  function Cell(shape: seq<nat>, loc: seq<int>): (k: nat)
    requires Addressable(shape, loc)
    ensures k < Size(shape)
  {
    Offset(shape, Resolve(shape, loc))
  }

  /** The index tuple of the flat cell `k`: the inverse of Offset. */
  function Index(shape: seq<nat>, k: nat): (idx: seq<int>)
    requires k < Size(shape)
    ensures InBounds(shape, idx) && Offset(shape, idx) == k
  {
    if |shape| == 0 then []
    else
      var s := Size(shape[1..]);
      assert 0 < s by {
        if s == 0 { Arith.MulIsProduct(shape[0], s); }
      }
      Arith.DivBelow(k, shape[0], s);
      var qr := Arith.DivMod(k, s);
      var rest := Index(shape[1..], qr.1);
      var idx := [qr.0] + rest;
      assert idx[1..] == rest;
      idx
  }

  /** Python's `a < b` on tuples of integers: lexicographic, a proper prefix is smaller. */
  predicate TupleLess(a: seq<int>, b: seq<int>)
  {
    if |a| == 0 then |b| > 0
    else if |b| == 0 then false
    else a[0] < b[0] || (a[0] == b[0] && TupleLess(a[1..], b[1..]))
  }

  lemma {:induction false} TupleTrichotomy(a: seq<int>, b: seq<int>)
    requires |a| == |b|
    ensures TupleLess(a, b) || a == b || TupleLess(b, a)
    ensures !(TupleLess(a, b) && TupleLess(b, a))
    ensures !TupleLess(a, a)
  {
    if |a| > 0 {
      TupleTrichotomy(a[1..], b[1..]);
      if a[0] == b[0] && a[1..] == b[1..] {
        assert a == [a[0]] + a[1..] && b == [b[0]] + b[1..];
      }
    }
  }

  /** Row-major order is Python's tuple order: flat positions compare as the indices do. */
  lemma {:induction false} OffsetOrder(shape: seq<nat>, a: seq<int>, b: seq<int>)
    requires InBounds(shape, a) && InBounds(shape, b)
    ensures Offset(shape, a) < Offset(shape, b) <==> TupleLess(a, b)
  {
    if |shape| > 0 {
      var s := Size(shape[1..]);
      assert InBounds(shape[1..], a[1..]) && InBounds(shape[1..], b[1..]);
      var oa, ob := Offset(shape[1..], a[1..]), Offset(shape[1..], b[1..]);
      if a[0] < b[0] {
        Arith.MulStep(a[0], b[0], s, oa);
      } else if b[0] < a[0] {
        Arith.MulStep(b[0], a[0], s, ob);
      } else {
        OffsetOrder(shape[1..], a[1..], b[1..]);
      }
    }
  }

  /** Distinct in-bounds indices have distinct flat positions. */
  lemma OffsetInjective(shape: seq<nat>, a: seq<int>, b: seq<int>)
    requires InBounds(shape, a) && InBounds(shape, b)
    requires Offset(shape, a) == Offset(shape, b)
    ensures a == b
  {
    TupleTrichotomy(a, b);
    OffsetOrder(shape, a, b);
    OffsetOrder(shape, b, a);
  }

  lemma IndexOfOffset(shape: seq<nat>, idx: seq<int>)
    requires InBounds(shape, idx)
    ensures Index(shape, Offset(shape, idx)) == idx
  {
    OffsetInjective(shape, Index(shape, Offset(shape, idx)), idx);
  }

  /** The cell lies on the start or end face of some axis. */
  predicate IsEdge(shape: seq<nat>, idx: seq<int>)
    requires |idx| == |shape|
  {
    exists k :: 0 <= k < |idx| && (idx[k] == 0 || idx[k] == shape[k] as int - 1)
  }

  /**
   * What the axis loop of get_edge_indices has marked after its first `axes`
   * rounds: the start slice of every such axis, and its end slice when the
   * axis has more than one cell.
   */
  predicate MarkedBy(shape: seq<nat>, idx: seq<int>, axes: nat)
    requires |idx| == |shape| && axes <= |shape|
  {
    axes > 0 &&
    (MarkedBy(shape, idx, axes - 1) || idx[axes - 1] == 0 ||
     (shape[axes - 1] > 1 && idx[axes - 1] == shape[axes - 1] as int - 1))
  }

  lemma {:induction false} MarkedByAxes(shape: seq<nat>, idx: seq<int>, axes: nat)
    requires InBounds(shape, idx) && axes <= |shape|
    ensures MarkedBy(shape, idx, axes) <==>
            exists k :: 0 <= k < axes && (idx[k] == 0 || idx[k] == shape[k] as int - 1)
  {
    if axes > 0 {
      MarkedByAxes(shape, idx, axes - 1);
      var a := axes - 1;
      if idx[a] == shape[a] as int - 1 && shape[a] <= 1 {
        assert idx[a] == 0;
      }
    }
  }

  /** Skipping the end slice on an axis of one cell loses nothing: the marks are the edge cells. */
  lemma MarkedByAllIsEdge(shape: seq<nat>, idx: seq<int>)
    requires InBounds(shape, idx)
    ensures MarkedBy(shape, idx, |shape|) == IsEdge(shape, idx)
  {
    MarkedByAxes(shape, idx, |shape|);
  }

  /** An axis of length 1 puts every cell of the array on the edge. */
  lemma UnitAxisMakesAllEdge(shape: seq<nat>, axis: nat, idx: seq<int>)
    requires axis < |shape| && shape[axis] == 1
    requires InBounds(shape, idx)
    ensures IsEdge(shape, idx)
  {
    assert idx[axis] == 0;
  }

  /** The index tuples of the first `n` flat cells, in row-major order. */
  function Cells(shape: seq<nat>, n: nat): (r: seq<seq<int>>)
    requires n <= Size(shape)
    ensures |r| == n && forall k :: 0 <= k < n ==> r[k] == Index(shape, k)
  {
    seq(n, k requires 0 <= k < n => Index(shape, k))
  }

  /** The edge cells among `cells`, in their order. */
  function KeepEdges(shape: seq<nat>, cells: seq<seq<int>>): (r: seq<seq<int>>)
    requires forall j :: 0 <= j < |cells| ==> |cells[j]| == |shape|
    ensures forall j :: 0 <= j < |r| ==> r[j] in cells
  {
    if cells == [] then []
    else
      var front, last := cells[..|cells| - 1], cells[|cells| - 1];
      KeepEdges(shape, front) + (if IsEdge(shape, last) then [last] else [])
  }

  lemma {:induction false} KeepEdgesMember(shape: seq<nat>, cells: seq<seq<int>>, x: seq<int>)
    requires forall j :: 0 <= j < |cells| ==> |cells[j]| == |shape|
    ensures x in KeepEdges(shape, cells) <==> x in cells && |x| == |shape| && IsEdge(shape, x)
  {
    if cells != [] {
      var front, last := cells[..|cells| - 1], cells[|cells| - 1];
      KeepEdgesMember(shape, front, x);
      assert cells == front + [last];
    }
  }

  /** Keeping some cells of a listing ordered by flat position leaves it ordered. */
  lemma {:induction false} KeepEdgesOrdered(shape: seq<nat>, cells: seq<seq<int>>, i: nat, j: nat)
    requires forall m :: 0 <= m < |cells| ==> |cells[m]| == |shape| && InBounds(shape, cells[m])
    requires forall m, m' :: 0 <= m < m' < |cells| ==> Offset(shape, cells[m]) < Offset(shape, cells[m'])
    requires i < j < |KeepEdges(shape, cells)|
    ensures Offset(shape, KeepEdges(shape, cells)[i]) < Offset(shape, KeepEdges(shape, cells)[j])
  {
    var front, last := cells[..|cells| - 1], cells[|cells| - 1];
    var kept := KeepEdges(shape, front);
    var r := KeepEdges(shape, cells);
    assert r == kept + (if IsEdge(shape, last) then [last] else []);
    if j < |kept| {
      KeepEdgesOrdered(shape, front, i, j);
      assert r[i] == kept[i] && r[j] == kept[j];
    } else {
      assert r[j] == last && r[i] == kept[i];
      assert kept[i] in front;
      var m :| 0 <= m < |front| && front[m] == kept[i];
      assert cells[m] == kept[i];
    }
  }

  lemma CellsMember(shape: seq<nat>, n: nat, x: seq<int>)
    requires n <= Size(shape)
    ensures x in Cells(shape, n) <==> InBounds(shape, x) && Offset(shape, x) < n
  {
    var c := Cells(shape, n);
    if x in c {
      var k :| 0 <= k < n && c[k] == x;
    }
    if InBounds(shape, x) && Offset(shape, x) < n {
      IndexOfOffset(shape, x);
      assert c[Offset(shape, x)] == x;
    }
  }

  /** Edge indices among the first `n` flat cells, in row-major order. */
  function EdgeIndicesBelow(shape: seq<nat>, n: nat): (r: seq<seq<int>>)
    requires n <= Size(shape)
    ensures forall j :: 0 <= j < |r| ==> InBounds(shape, r[j])
  {
    KeepEdges(shape, Cells(shape, n))
  }

  /** The rows returned by get_edge_indices. */
  function EdgeIndices(shape: seq<nat>): seq<seq<int>>
  {
    EdgeIndicesBelow(shape, Size(shape))
  }

  /** The edge indices come out in strictly increasing flat position. */
  lemma EdgeIndicesBelowOrdered(shape: seq<nat>, n: nat)
    requires n <= Size(shape)
    ensures forall i, j :: 0 <= i < j < |EdgeIndicesBelow(shape, n)| ==>
              Offset(shape, EdgeIndicesBelow(shape, n)[i]) < Offset(shape, EdgeIndicesBelow(shape, n)[j])
  {
    var e := EdgeIndicesBelow(shape, n);
    forall i, j | 0 <= i < j < |e|
      ensures Offset(shape, e[i]) < Offset(shape, e[j])
    {
      KeepEdgesOrdered(shape, Cells(shape, n), i, j);
    }
  }

  lemma EdgeIndicesBelowMember(shape: seq<nat>, n: nat, idx: seq<int>)
    requires n <= Size(shape)
    ensures idx in EdgeIndicesBelow(shape, n) <==>
              InBounds(shape, idx) && IsEdge(shape, idx) && Offset(shape, idx) < n
  {
    KeepEdgesMember(shape, Cells(shape, n), idx);
    CellsMember(shape, n, idx);
  }

  /** get_edge_indices returns an index iff it is in range and on some face. */
  lemma EdgeIndicesMembership(shape: seq<nat>, idx: seq<int>)
    ensures idx in EdgeIndices(shape) <==> InBounds(shape, idx) && IsEdge(shape, idx)
  {
    EdgeIndicesBelowMember(shape, Size(shape), idx);
  }

  /**
   * Every row has one coordinate per axis, and the rows come out strictly
   * increasing in row-major (Python tuple) order, hence without repetition.
   */
  lemma EdgeIndicesRowMajor(shape: seq<nat>)
    ensures forall j :: 0 <= j < |EdgeIndices(shape)| ==> |EdgeIndices(shape)[j]| == |shape|
    ensures forall i, j :: 0 <= i < j < |EdgeIndices(shape)| ==>
              TupleLess(EdgeIndices(shape)[i], EdgeIndices(shape)[j])
    ensures forall i, j :: 0 <= i < j < |EdgeIndices(shape)| ==>
              EdgeIndices(shape)[i] != EdgeIndices(shape)[j]
  {
    var e := EdgeIndices(shape);
    EdgeIndicesBelowOrdered(shape, Size(shape));
    forall i, j | 0 <= i < j < |e|
      ensures TupleLess(e[i], e[j]) && e[i] != e[j]
    {
      OffsetOrder(shape, e[i], e[j]);
    }
  }

  /** The IndexError numpy raises for an integer index outside its axis. */
  datatype GridError = AxisIndexError

  /**
   * `mask[..., coord, ...] = True` with `coord` on axis `axis`: True over the
   * slice of cells whose coordinate there is the one `coord` denotes, or
   * IndexError, before anything is written, when `coord` is not on the axis.
   */
  method MarkSlice(shape: seq<nat>, mask: array<bool>, axis: nat, coord: int) returns (r: Result<(), GridError>)
    requires mask.Length == Size(shape) && axis < |shape|
    modifies mask
    ensures r.Err? <==> !IndexOk(coord, shape[axis])
    ensures r.Err? ==> mask[..] == old(mask[..])
    ensures r.Ok? ==> forall k :: 0 <= k < mask.Length ==>
              mask[k] == (old(mask[k]) || Index(shape, k)[axis] == Wrap(coord, shape[axis]))
  {
    if !IndexOk(coord, shape[axis]) {
      return Err(AxisIndexError);
    }
    var c := Wrap(coord, shape[axis]);
    for k := 0 to mask.Length
      invariant forall k' :: 0 <= k' < k ==> mask[k'] == (old(mask[k']) || Index(shape, k')[axis] == c)
      invariant forall k' :: k <= k' < mask.Length ==> mask[k'] == old(mask[k'])
    {
      if Index(shape, k)[axis] == c {
        mask[k] := true;
      }
    }
    return Ok(());
  }

  /**
   * The boolean mask of get_edge_indices, built axis by axis with the start
   * slice `0` and, on an axis longer than 1, the end slice `-1`. The start
   * slice of an axis of length 0 raises IndexError.
   */
  method EdgeMask(shape: seq<nat>) returns (r: Result<array<bool>, GridError>)
    ensures r.Err? <==> HasEmptyAxis(shape)
    ensures r.Ok? ==> fresh(r.value) && r.value.Length == Size(shape)
    ensures r.Ok? ==> forall k :: 0 <= k < r.value.Length ==> r.value[k] == IsEdge(shape, Index(shape, k))
  {
    var mask := new bool[Size(shape)](_ => false);
    for axis := 0 to |shape|
      invariant forall j :: 0 <= j < axis ==> shape[j] > 0
      invariant forall k :: 0 <= k < mask.Length ==> mask[k] == MarkedBy(shape, Index(shape, k), axis)
    {
      var start := MarkSlice(shape, mask, axis, 0);
      if start.Err? {
        return Err(start.error);
      }
      if shape[axis] > 1 {
        var end := MarkSlice(shape, mask, axis, -1);
        assert end.Ok?;
      }
    }
    forall k | 0 <= k < mask.Length
      ensures mask[k] == IsEdge(shape, Index(shape, k))
    {
      MarkedByAllIsEdge(shape, Index(shape, k));
    }
    return Ok(mask);
  }

  /**
   * The method form of get_edge_indices: it reads only the shape, builds the
   * mask, then lists the marked cells; the mask raises for an empty axis.
   */
  method GetEdgeIndices(shape: seq<nat>) returns (r: Result<seq<seq<int>>, GridError>)
    ensures r.Err? <==> HasEmptyAxis(shape)
    ensures r.Ok? ==> r.value == EdgeIndices(shape)
  {
    var built := EdgeMask(shape);
    if built.Err? {
      return Err(built.error);
    }
    var mask := built.value;
    // np.where lists the marked cells in row-major order
    var indices := [];
    for k := 0 to mask.Length
      invariant indices == EdgeIndicesBelow(shape, k)
    {
      assert Cells(shape, k + 1)[..k] == Cells(shape, k);
      if mask[k] {
        indices := indices + [Index(shape, k)];
      }
    }
    return Ok(indices);
  }

  /** get_edge_values: the array's values at the edge indices, in their order, or the IndexError of an empty axis. */
  function GetEdgeValues(shape: seq<nat>, arr: seq<real>): (r: Result<seq<real>, GridError>)
    requires |arr| == Size(shape)
    ensures r.Err? <==> HasEmptyAxis(shape)
    ensures r.Ok? ==> |r.value| == |EdgeIndices(shape)|
    ensures r.Ok? ==> forall j :: 0 <= j < |r.value| ==> r.value[j] == arr[Offset(shape, EdgeIndices(shape)[j])]
  {
    if HasEmptyAxis(shape) then Err(AxisIndexError)
    else Ok(seq(|EdgeIndices(shape)|, j requires 0 <= j < |EdgeIndices(shape)| => arr[Offset(shape, EdgeIndices(shape)[j])]))
  }

  /** The array after every edge cell is overwritten with `v`. */
  function WithEdges(shape: seq<nat>, arr: seq<real>, v: real): seq<real>
    requires |arr| == Size(shape)
  {
    seq(|arr|, k requires 0 <= k < |arr| => if IsEdge(shape, Index(shape, k)) then v else arr[k])
  }

  /** The array after `v` is written at each listed index, one after the other. */
  function WriteAll(shape: seq<nat>, arr: seq<real>, idxs: seq<seq<int>>, v: real): (r: seq<real>)
    requires |arr| == Size(shape)
    requires forall j :: 0 <= j < |idxs| ==> InBounds(shape, idxs[j])
    ensures |r| == |arr|
  {
    if idxs == [] then arr
    else
      var last := idxs[|idxs| - 1];
      WriteAll(shape, arr, idxs[..|idxs| - 1], v)[Offset(shape, last) := v]
  }

  lemma {:induction false} WriteAllAt(shape: seq<nat>, arr: seq<real>, idxs: seq<seq<int>>, v: real, k: nat)
    requires |arr| == Size(shape) && k < |arr|
    requires forall j :: 0 <= j < |idxs| ==> InBounds(shape, idxs[j])
    ensures WriteAll(shape, arr, idxs, v)[k] == if Index(shape, k) in idxs then v else arr[k]
  {
    if idxs != [] {
      var front, last := idxs[..|idxs| - 1], idxs[|idxs| - 1];
      WriteAllAt(shape, arr, front, v, k);
      assert idxs == front + [last];
      assert (Index(shape, k) in idxs) == (Index(shape, k) in front || Index(shape, k) == last);
      IndexOfOffset(shape, last);
      assert WriteAll(shape, arr, idxs, v) == WriteAll(shape, arr, front, v)[Offset(shape, last) := v];
    }
  }

  /**
   * set_edge_values: overwrites every edge cell of `arr` in place and returns
   * the same array; an empty axis raises IndexError before any write.
   */
  method SetEdgeValues(shape: seq<nat>, arr: array<real>, v: real) returns (r: Result<array<real>, GridError>)
    requires arr.Length == Size(shape)
    modifies arr
    ensures r.Err? <==> HasEmptyAxis(shape)
    ensures r.Err? ==> arr[..] == old(arr[..])
    ensures r.Ok? ==> r.value == arr && arr[..] == WithEdges(shape, old(arr[..]), v)
  {
    var found := GetEdgeIndices(shape);
    if found.Err? {
      return Err(found.error);
    }
    var indices := found.value;
    ghost var before := arr[..];
    for j := 0 to |indices|
      invariant arr[..] == WriteAll(shape, before, indices[..j], v)
    {
      assert indices[..j + 1][..j] == indices[..j];
      arr[Offset(shape, indices[j])] := v;
    }
    assert indices[..|indices|] == indices;
    WriteAllEdges(shape, before, v);
    return Ok(arr);
  }

  /** Writing `v` at every listed edge index, in order, is overwriting the edges. */
  lemma WriteAllEdges(shape: seq<nat>, arr: seq<real>, v: real)
    requires |arr| == Size(shape)
    ensures WriteAll(shape, arr, EdgeIndices(shape), v) == WithEdges(shape, arr, v)
  {
    forall k | 0 <= k < |arr|
      ensures WriteAll(shape, arr, EdgeIndices(shape), v)[k] == WithEdges(shape, arr, v)[k]
    {
      WriteAllAt(shape, arr, EdgeIndices(shape), v, k);
      EdgeIndicesMembership(shape, Index(shape, k));
    }
  }

  /** After set_edge_values every edge cell holds `v` and every other cell is unchanged. */
  lemma WithEdgesCells(shape: seq<nat>, arr: seq<real>, v: real, idx: seq<int>)
    requires |arr| == Size(shape) && InBounds(shape, idx)
    ensures var k := Offset(shape, idx);
            WithEdges(shape, arr, v)[k] == if IsEdge(shape, idx) then v else arr[k]
  {
    IndexOfOffset(shape, idx);
  }

  /** Setting the edges twice to the same value is the same as setting them once. */
  lemma WithEdgesIdempotent(shape: seq<nat>, arr: seq<real>, v: real)
    requires |arr| == Size(shape)
    ensures WithEdges(shape, WithEdges(shape, arr, v), v) == WithEdges(shape, arr, v)
  {
  }

  /** Reading the edges after setting them gives `v` once per edge index. */
  lemma EdgeValuesAfterSet(shape: seq<nat>, arr: seq<real>, v: real)
    requires |arr| == Size(shape)
    ensures GetEdgeValues(shape, WithEdges(shape, arr, v))
            == if HasEmptyAxis(shape) then Err(AxisIndexError) else Ok(seq(|EdgeIndices(shape)|, _ => v))
  {
    var e := EdgeIndices(shape);
    forall j | 0 <= j < |e|
      ensures WithEdges(shape, arr, v)[Offset(shape, e[j])] == v
    {
      EdgeIndicesMembership(shape, e[j]);
      WithEdgesCells(shape, arr, v, e[j]);
    }
    if !HasEmptyAxis(shape) {
      assert GetEdgeValues(shape, WithEdges(shape, arr, v)).value == seq(|e|, _ => v);
    }
  }

  /** get_edge_values reads edge cells only: arrays that agree there give the same values. */
  lemma EdgeValuesReadOnlyEdges(shape: seq<nat>, a: seq<real>, b: seq<real>)
    requires |a| == Size(shape) && |b| == Size(shape)
    requires forall k :: 0 <= k < |a| && IsEdge(shape, Index(shape, k)) ==> a[k] == b[k]
    ensures GetEdgeValues(shape, a) == GetEdgeValues(shape, b)
  {
    var e := EdgeIndices(shape);
    forall j | 0 <= j < |e|
      ensures a[Offset(shape, e[j])] == b[Offset(shape, e[j])]
    {
      EdgeIndicesMembership(shape, e[j]);
      IndexOfOffset(shape, e[j]);
    }
    if !HasEmptyAxis(shape) {
      assert GetEdgeValues(shape, a).value == GetEdgeValues(shape, b).value;
    }
  }

  /** The all-zero grid of `n` cells. */
  function Zeros(n: nat): (z: seq<real>)
    ensures |z| == n && forall k :: 0 <= k < n ==> z[k] == 0.0
  {
    seq(n, _ => 0.0)
  }
}
