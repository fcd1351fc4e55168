/**
 * The training-set index (inference/datasetformat.py): the sorted list of
 * `.npz` paths under a directory, and the label arithmetic of one record.
 *
 * The directory listing and the arrays `np.load` returns are inputs; the
 * `float32` casts are not modelled (the arithmetic is over exact reals).
 */
module DatasetFormat {
  import opened Wrappers
  import Arith

  /** Python's `<=` on strings: lexicographic by code point. */
  predicate StrLessEq(a: string, b: string)
    decreases |a|
  {
    a == [] || (b != [] && (a[0] < b[0] || (a[0] == b[0] && StrLessEq(a[1..], b[1..]))))
  }

  lemma {:induction false} StrLessEqTotal(a: string, b: string)
    ensures StrLessEq(a, b) || StrLessEq(b, a)
    decreases |a|
  {
    if a != [] && b != [] && a[0] == b[0] {
      StrLessEqTotal(a[1..], b[1..]);
    }
  }

  lemma {:induction false} StrLessEqAntisymmetric(a: string, b: string)
    requires StrLessEq(a, b) && StrLessEq(b, a)
    ensures a == b
    decreases |a|
  {
    if a != [] {
      StrLessEqAntisymmetric(a[1..], b[1..]);
      assert a == [a[0]] + a[1..] && b == [b[0]] + b[1..];
    }
  }

  predicate Sorted(s: seq<string>)
  {
    forall i :: 0 <= i < |s| - 1 ==> StrLessEq(s[i], s[i + 1])
  }

  /** `x` put into the sorted list `s` before the first item it does not exceed. */
  function Insert(x: string, s: seq<string>): (r: seq<string>)
    ensures |r| == |s| + 1 && multiset(r) == multiset(s) + multiset{x}
    ensures r != [] && (r[0] == x || (s != [] && r[0] == s[0]))
  {
    if s == [] then [x]
    else if StrLessEq(x, s[0]) then [x] + s
    else
      assert s == [s[0]] + s[1..];
      [s[0]] + Insert(x, s[1..])
  }

  lemma {:induction false} InsertSorted(x: string, s: seq<string>)
    requires Sorted(s)
    ensures Sorted(Insert(x, s))
  {
    if s != [] && !StrLessEq(x, s[0]) {
      StrLessEqTotal(x, s[0]);
      InsertSorted(x, s[1..]);
      var t := Insert(x, s[1..]);
      assert Insert(x, s) == [s[0]] + t;
      assert t[0] == x || (|s| > 1 && t[0] == s[1]);
    }
  }

  /** `sorted(paths)`. */
  function SortPaths(paths: seq<string>): (r: seq<string>)
    ensures |r| == |paths| && multiset(r) == multiset(paths)
  {
    if paths == [] then []
    else
      assert paths == [paths[0]] + paths[1..];
      Insert(paths[0], SortPaths(paths[1..]))
  }

  lemma {:induction false} SortPathsSorted(paths: seq<string>)
    ensures Sorted(SortPaths(paths))
  {
    if paths != [] {
      SortPathsSorted(paths[1..]);
      InsertSorted(paths[0], SortPaths(paths[1..]));
    }
  }

  /** Two sorted lists with the same items are the same list: sorting has one answer. */
  lemma {:induction false} SortedUnique(s: seq<string>, t: seq<string>)
    requires Sorted(s) && Sorted(t) && multiset(s) == multiset(t)
    ensures s == t
  {
    if s != [] {
      assert |t| == |s| by {
        assert |multiset(s)| == |s| && |multiset(t)| == |t|;
      }
      SameHead(s, t);
      SameTail(s, t);
      SortedTail(s);
      SortedTail(t);
      SortedUnique(s[1..], t[1..]);
      assert s == [s[0]] + s[1..] && t == [t[0]] + t[1..];
    }
  }

  lemma SameHead(s: seq<string>, t: seq<string>)
    requires Sorted(s) && Sorted(t) && multiset(s) == multiset(t) && s != [] && t != []
    ensures s[0] == t[0]
  {
    assert t[0] in multiset(s) && s[0] in multiset(t);
    SortedHeadIsLeast(s, t[0]);
    SortedHeadIsLeast(t, s[0]);
    StrLessEqAntisymmetric(s[0], t[0]);
  }

  lemma SameTail(s: seq<string>, t: seq<string>)
    requires s != [] && t != [] && s[0] == t[0] && multiset(s) == multiset(t)
    ensures multiset(s[1..]) == multiset(t[1..])
  {
    assert s == [s[0]] + s[1..] && t == [t[0]] + t[1..];
    assert multiset(s[1..]) == multiset(s) - multiset{s[0]};
    assert multiset(t[1..]) == multiset(t) - multiset{t[0]};
  }

  lemma SortedTail(s: seq<string>)
    requires Sorted(s) && s != []
    ensures Sorted(s[1..])
  {
    forall i | 0 <= i < |s| - 2
      ensures StrLessEq(s[1..][i], s[1..][i + 1])
    {
      assert s[1..][i] == s[i + 1] && s[1..][i + 1] == s[i + 2];
    }
  }

  /** The head of a sorted list does not exceed any of its items. */
  lemma {:induction false} SortedHeadIsLeast(s: seq<string>, x: string)
    requires Sorted(s) && x in multiset(s)
    ensures StrLessEq(s[0], x)
  {
    if s[0] != x {
      assert s == [s[0]] + s[1..];
      assert x in multiset(s[1..]);
      SortedHeadIsLeast(s[1..], x);
      StrLessEqTransitive(s[0], s[1], x);
    } else {
      StrLessEqReflexive(x);
    }
  }

  lemma {:induction false} StrLessEqReflexive(a: string)
    ensures StrLessEq(a, a)
    decreases |a|
  {
    if a != [] {
      StrLessEqReflexive(a[1..]);
    }
  }

  lemma {:induction false} StrLessEqTransitive(a: string, b: string, c: string)
    requires StrLessEq(a, b) && StrLessEq(b, c)
    ensures StrLessEq(a, c)
    decreases |a|
  {
    if a != [] && a[0] == b[0] && b[0] == c[0] {
      StrLessEqTransitive(a[1..], b[1..], c[1..]);
    }
  }

  /** The stored list of record paths. */
  datatype Dataset = Dataset(paths: seq<string>)

  datatype DatasetError =
    | FileNotFound      // no `.npz` file under the root
    | IndexError        // `self.paths[i]` outside the list
    | ValueError        // `room_rect` does not unpack into four numbers

  /** `datasetformat(root)`, given the files `glob` finds: the paths sorted, or FileNotFoundError. */
  function New(listing: seq<string>): (r: Result<Dataset, DatasetError>)
    ensures r.Err? <==> listing == []
    ensures r.Err? ==> r.error == FileNotFound
    ensures r.Ok? ==> Sorted(r.value.paths) && multiset(r.value.paths) == multiset(listing)
  {
    SortPathsSorted(listing);
    if listing == [] then Err(FileNotFound) else Ok(Dataset(SortPaths(listing)))
  }

  /** The stored paths are determined by the set of files found, not by the order `glob` lists them in. */
  lemma NewIgnoresListingOrder(a: seq<string>, b: seq<string>)
    requires multiset(a) == multiset(b)
    ensures New(a) == New(b)
  {
    if a != [] {
      SortPathsSorted(a);
      SortPathsSorted(b);
      SortedUnique(SortPaths(a), SortPaths(b));
    }
  }

  /** `__len__`: the number of paths, one per file found. */
  function Len(d: Dataset): (n: nat)
    ensures n == |d.paths|
  {
    |d.paths|
  }

  lemma LenOfNew(listing: seq<string>)
    requires listing != []
    ensures Len(New(listing).value) == |listing| >= 1
  {
  }

  /** Python's `paths[i]`: a negative index counts from the end. */
  function PathAt(paths: seq<string>, i: int): (r: Result<string, DatasetError>)
    ensures r.Ok? <==> -|paths| <= i < |paths|
    ensures r.Err? ==> r.error == IndexError
    ensures 0 <= i < |paths| ==> r == Ok(paths[i])
    ensures -|paths| <= i < 0 ==> r == Ok(paths[|paths| + i])
  {
    if 0 <= i < |paths| then Ok(paths[i])
    else if -|paths| <= i < 0 then Ok(paths[|paths| + i])
    else Err(IndexError)
  }

  /** The arrays of one `.npz` record. */
  datatype Record = Record(audio: seq<seq<real>>, speakerXY: seq<seq<real>>, roomRect: seq<real>)

  /** `reshape(-1)`: the rows one after the other. */
  function Flatten(rows: seq<seq<real>>): (r: seq<real>)
  {
    if rows == [] then [] else rows[0] + Flatten(rows[1..])
  }

  /** With rows of equal length `m`, item `j` of row `i` lands at `i * m + j`. */
  lemma {:induction false} FlattenRowMajor(rows: seq<seq<real>>, m: nat, i: nat, j: nat)
    requires forall k :: 0 <= k < |rows| ==> |rows[k]| == m
    requires i < |rows| && j < m
    ensures Arith.Mul(i, m) + j < |Flatten(rows)| && Flatten(rows)[Arith.Mul(i, m) + j] == rows[i][j]
  {
    var f := Flatten(rows);
    assert f == rows[0] + Flatten(rows[1..]);
    if i > 0 {
      FlattenRowMajor(rows[1..], m, i - 1, j);
      assert Arith.Mul(i, m) + j == m + (Arith.Mul(i - 1, m) + j);
    }
  }

  lemma {:induction false} FlattenLength(rows: seq<seq<real>>, m: nat)
    requires forall k :: 0 <= k < |rows| ==> |rows[k]| == m
    ensures |Flatten(rows)| == Arith.Mul(|rows|, m)
  {
    if rows != [] {
      FlattenLength(rows[1..], m);
    }
  }

  /** `[[xL, yL], [xR, yR]]` flattens to `[xL, yL, xR, yR]`. */
  lemma SpeakerLabels(xL: real, yL: real, xR: real, yR: real)
    ensures Flatten([[xL, yL], [xR, yR]]) == [xL, yL, xR, yR]
  {
    var rows := [[xL, yL], [xR, yR]];
    assert rows[1..] == [[xR, yR]];
    assert rows[1..][1..] == [];
    assert Flatten(rows[1..]) == [xR, yR] + Flatten([]);
  }

  /** `[cx, cy, w, h]` of `[xmin, xmax, ymin, ymax]`; unpacking anything but four numbers raises ValueError. */
  function RoomLabels(rect: seq<real>): (r: Result<seq<real>, DatasetError>)
    ensures r.Ok? <==> |rect| == 4
    ensures r.Err? ==> r.error == ValueError
    ensures r.Ok? ==> |r.value| == 4
  {
    if |rect| != 4 then Err(ValueError)
    else
      var xmin, xmax, ymin, ymax := rect[0], rect[1], rect[2], rect[3];
      Ok([(xmin + xmax) / 2.0, (ymin + ymax) / 2.0, xmax - xmin, ymax - ymin])
  }

  /** The rectangle a centre-and-size label describes. */
  function RoomRect(labels: seq<real>): (rect: seq<real>)
    requires |labels| == 4
    ensures |rect| == 4
  {
    var cx, cy, w, h := labels[0], labels[1], labels[2], labels[3];
    [cx - w / 2.0, cx + w / 2.0, cy - h / 2.0, cy + h / 2.0]
  }

  /** The labels give the rectangle back: `xmin = cx - w/2`, `xmax = cx + w/2`, and so for y. */
  lemma RoomLabelsInvert(rect: seq<real>)
    requires |rect| == 4
    ensures RoomRect(RoomLabels(rect).value) == rect
  {
    var l := RoomLabels(rect).value;
    assert l[0] - l[2] / 2.0 == rect[0] && l[0] + l[2] / 2.0 == rect[1];
    assert l[1] - l[3] / 2.0 == rect[2] && l[1] + l[3] / 2.0 == rect[3];
  }

  /** A centre-and-size label comes back from its rectangle. */
  lemma RoomRectInvert(labels: seq<real>)
    requires |labels| == 4
    ensures RoomLabels(RoomRect(labels)) == Ok(labels)
  {
    var r := RoomRect(labels);
    assert (r[0] + r[1]) / 2.0 == labels[0] && r[1] - r[0] == labels[2];
    assert (r[2] + r[3]) / 2.0 == labels[1] && r[3] - r[2] == labels[3];
    assert RoomLabels(r).value == [(r[0] + r[1]) / 2.0, (r[2] + r[3]) / 2.0, r[1] - r[0], r[3] - r[2]];
    assert labels == [labels[0], labels[1], labels[2], labels[3]];
  }

  /** An ordered rectangle has a non-negative width and height, and its centre lies inside it. */
  lemma RoomLabelsOrdered(rect: seq<real>)
    requires |rect| == 4 && rect[0] <= rect[1] && rect[2] <= rect[3]
    ensures var l := RoomLabels(rect).value;
            l[2] >= 0.0 && l[3] >= 0.0 && rect[0] <= l[0] <= rect[1] && rect[2] <= l[1] <= rect[3]
  {
  }

  /** What `__getitem__` returns: the audio, the flattened speaker positions, the room label. */
  datatype Item = Item(audio: seq<seq<real>>, speaker: seq<real>, room: seq<real>)

  /** `__getitem__(i)`, with `np.load` given as `load`. */
  function GetItem(d: Dataset, i: int, load: string -> Record): (r: Result<Item, DatasetError>)
    ensures r.Ok? <==> -|d.paths| <= i < |d.paths| && |load(PathAt(d.paths, i).value).roomRect| == 4
    ensures r.Ok? ==> var z := load(PathAt(d.paths, i).value);
                      r.value.audio == z.audio && r.value.speaker == Flatten(z.speakerXY)
                      && r.value.room == RoomLabels(z.roomRect).value
  {
    match PathAt(d.paths, i)
    case Err(e) => Err(e)
    case Ok(path) =>
      var z := load(path);
      match RoomLabels(z.roomRect)
      case Err(e) => Err(e)
      case Ok(room) => Ok(Item(z.audio, Flatten(z.speakerXY), room))
  }
}
