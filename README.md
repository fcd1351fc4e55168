# sound_simulation in Dafny

A model of the core of `sound_simulation`, a finite-difference simulator of
sound waves on an N-dimensional pressure grid, with proofs about it.

**Covered:**
- **Edge geometry (`Grid`).** The edge cells of an N-dimensional array, and reading and overwriting them in place.
- **Leapfrog arithmetic (`Leapfrog`).** The update, the Laplacian scaled by the grid step, the CFL stability test and the history frame count.
- **Simulators.** The driver-based simulator (`Engine`) and its predecessor, which drives a fixed cell (`Legacy`).
- **Coefficient boundary (`Boundary`).**
- **Waveforms (`Waveforms`, `Setup`).** The waveforms and their registry, and driver binding.
- **HDF5 archive (`Archive`).** The writer and the reader. They rely on Python's `str`/`eval` of integer tuples and on `:04d` padding (`PyRepr`).
- **Training labels (`DatasetFormat`).** The label arithmetic of the training set.
- **Interactive editor (`Interactive`).** The state of the obstacle and driver editor.

**How things are represented:**
- **Grids.** A grid is a flat row-major `seq<real>` (or `array<real>`) together with its `shape`. `Grid.Offset` and `Grid.Index` convert between index tuples and flat positions.
- **Numbers.** Floats are exact reals.
- **`np.cos`, `np.exp`, `np.pi`.** They are a `Math` value. The facts a property needs (`|cos x| <= 1`, `exp 0 = 1`) are hypotheses of that property's lemma.
- **`scipy.ndimage.laplace`.** It is a `Stencil` parameter. The only fact used about it is that it maps the zero grid to zero.
- **Errors.** Python exceptions are `Err` values of `Result`.
- **Inputs.** The random draws, the directory listing, `np.load` and h5py's iteration order over subgroups are all inputs.
- **Specification functions.** Classes whose fields the source updates (`Simulate`, `Boundary`, `InteractiveSetup`, the archive `File`) are Dafny classes. Their methods are proved against specification functions:
  - `Engine.Step`/`State`, `Legacy.LegacyStep`/`LegacyState`;
  - `Grid.WithEdges`, `Boundary.Scaled`;
  - `Archive.SavedGroup`, `Archive.LoadSimulation`;
  - `Interactive.Apply`/`ApplyAll`.
- **numpy indexing.** A coordinate `c` on an axis of length `n` selects a cell when `-n <= c < n`, a negative one counting from the end (`Grid.Resolve`). Any other coordinate raises IndexError, and so does setting the edges of a grid with an axis of length 0.

**Two defects of the code are modelled as written** (see Findings):
- `add_driver` compares the location with `gridsize` as Python tuples, so it accepts locations off the grid. `Engine.Simulate.AddDriver` does the same. `_apply_drivers` then raises IndexError at such a location, or wraps a negative coordinate to the far end of its axis.
- The save writes no `location` attribute, so loading a saved driver raises KeyError. `Archive.Save` writes the same subgroups as the code.

## Model

| member | source | states |
|---|---|---|
| Grid.Offset | utils.py:34 | the row-major position of an in-bounds index lies inside the array |
| Grid.Index | utils.py:34 | the index of a flat cell is in bounds and is the inverse of its row-major position |
| Grid.OffsetOrder | utils.py:34 | flat positions compare exactly as Python compares the index tuples, so row-major order is tuple order |
| Grid.OffsetInjective | utils.py:34 | distinct in-bounds indices denote distinct cells |
| Grid.IndexOfOffset | utils.py:34 | converting an index to its cell and back gives the index |
| Grid.Wrap | simulate/simulate.py:84 | a coordinate in `[-n, n)` selects a position in `[0, n)`: itself, or counted from the end when negative |
| Grid.Resolve | simulate/simulate.py:84 | a location numpy accepts selects an in-bounds index, coordinate by coordinate |
| Grid.ResolveInBounds | simulate/simulate.py:84 | an in-bounds location is accepted and selects itself |
| Grid.Cell | simulate/simulate.py:84 | the flat position of the cell a location selects lies inside the grid |
| Grid.EmptyAxisIffNoCells | utils.py:18-25 | a grid has an axis of length 0 iff it has no cells |
| Grid.MarkedByAxes | utils.py:21-31 | after the first `axes` rounds of the axis loop, a cell is marked iff one of those coordinates is 0 or the last index |
| Grid.MarkedByAllIsEdge | utils.py:27-31 | skipping the end slice on an axis of size 1 loses no edge cell: the final mask is exactly the edge predicate |
| Grid.UnitAxisMakesAllEdge | utils.py:28-31 | an axis of length 1 puts every cell on the edge |
| Grid.EdgeIndicesMembership | utils.py:18-36 | an index is returned iff it is in range and some coordinate is 0 or `shape[k]-1` |
| Grid.EdgeIndicesRowMajor | utils.py:34 | every returned row has one coordinate per axis; rows are strictly increasing in tuple order, hence distinct |
| Grid.MarkSlice | utils.py:23-25 | a coordinate outside `[-n, n)` on `axis` raises IndexError and writes nothing; otherwise the mask is set at exactly the cells whose coordinate on `axis` is `coord`, counted from the end when negative, and every other entry is kept |
| Grid.EdgeMask | utils.py:18-31 | raises IndexError iff some axis has length 0; otherwise the fresh mask built axis by axis is true exactly at the edge cells |
| Grid.GetEdgeIndices | utils.py:4-36 | raises IndexError iff some axis has length 0; otherwise the edge indices in row-major order, read from the shape alone |
| Grid.GetEdgeValues | utils.py:39-53 | raises IndexError iff some axis has length 0; otherwise one value per edge index, the array's value at that index |
| Grid.EdgeValuesAfterSet | utils.py:50-53 | after setting the edges to `v`, the edge values are `v` once per edge index, or the same IndexError for a grid with an axis of length 0 |
| Grid.EdgeValuesReadOnlyEdges | utils.py:53 | the edge values depend only on the edge cells |
| Grid.WriteAllAt | utils.py:66 | writing `v` at a list of indices sets exactly the listed cells and keeps the others |
| Grid.SetEdgeValues | utils.py:55-67 | raises IndexError and changes nothing iff some axis has length 0; otherwise edges are overwritten in place with `v`, other cells are unchanged, and the same array is returned |
| Grid.WriteAllEdges | utils.py:64-66 | the fancy-index assignment over the edge indices is overwriting every edge cell and nothing else |
| Grid.WithEdgesCells | utils.py:64-66 | afterwards every edge cell holds `v` and every non-edge cell its old value |
| Grid.WithEdgesIdempotent | utils.py:55-67 | setting the edges twice to `v` equals setting them once |
| Waveforms.Call | waveforms.py:10-31 | the base class raises NotImplementedError; a pulse of zero width raises ZeroDivisionError; every other waveform returns a number |
| Waveforms.Fields | waveforms.py:15-28 | an instance's `__dict__` has exactly the dataclass fields of its class |
| Waveforms.Construct | waveforms.py:15-28 | a keyword that is not a field is rejected; otherwise the instance has the named class, every given keyword as its field value and the dataclass default for every field not given |
| Waveforms.ConstructPositional | waveforms.py:15-28 | one positional argument is rejected by the base class; a dataclass gets an instance of itself whose first field is the argument and whose other fields take their defaults |
| Waveforms.RegistryNamesItsClasses | waveforms.py:35-38 | the registry has exactly the keys `Cosine` and `GaussianPulse`; each maps to the class of that name; the base class is not registered |
| Waveforms.ConstructDefaults | waveforms.py:17-28 | the defaults are `frequency=3.0, amplitude=1.0`, and `amplitude=1.0, center_time=0.5, width=0.1` |
| Waveforms.ConstructFromFields | waveforms.py:15-28 | rebuilding from class and fields gives the same instance |
| Waveforms.CosineBounded | waveforms.py:20-21 | a cosine is evaluable and its magnitude is at most `|amplitude|`, given `|cos| <= 1` |
| Waveforms.GaussianPeak | waveforms.py:30-31 | the pulse equals its amplitude at its centre time, given `exp 0 = 1` |
| Waveforms.ExponentEven | waveforms.py:31 | the exponent is unchanged when the offset from the centre is negated |
| Waveforms.GaussianSymmetric | waveforms.py:30-31 | `value(c + d) == value(c - d)`, including the error case of zero width |
| Setup.DefaultDriver | simulate/setup.py:9-13 | a driver made without a waveform holds the class `Cosine` itself |
| Setup.GetValue | simulate/setup.py:15-16 | an instance slot returns exactly what calling the waveform returns, error included; a class slot constructs an instance of that class, or fails for the base class |
| Setup.DefaultDriverYieldsInstance | simulate/setup.py:13-16 | a default driver's value at `t` is the instance `Cosine(t, 1.0)`, not a number |
| Setup.CosineDriverValue | simulate/setup.py:15-16 | a driver holding a cosine yields that cosine's value |
| Setup.NewDriverGenerator | simulate/setup.py:25-27 | the generator stores `gridsize` and `dims == len(gridsize)` |
| Setup.GetRandomCosine | simulate/setup.py:29-42 | a truthy argument is kept and a falsy one replaced by a draw (an integer frequency in [1,10), an amplitude in [0.5,0.9)); the result is a cosine driver; `verbose` adds its location, frequency and amplitude |
| Setup.RandomCosineEvaluable | simulate/setup.py:36-38 | the generated driver always yields a number, below 0.9 in magnitude when the amplitude was drawn |
| Leapfrog.Laplacian | simulation/calculate.py:7-8 | each cell times `gridstep**2` is the stencil's value there |
| Leapfrog.Courant2 | simulate/simulate.py:57 | the factor `(wavespeed*timestep)**2` is non-negative, and zero exactly when the speed or the step is zero |
| Leapfrog.Update | simulate/simulate.py:56-58 | cell by cell, the change from `curr` to `next` is the change from `prev` to `curr` plus the scaled Laplacian; and the same rule applied to `(next, curr)` gives `prev` back |
| Leapfrog.UpdateReversible | simulate/simulate.py:56-58 | running the update back from `(next, curr)` gives `prev` |
| Leapfrog.LaplacianOfZero | simulation/calculate.py:7-8 | the Laplacian of the zero grid is zero when the stencil's is |
| Leapfrog.UpdateOfZero | simulate/simulate.py:57 | zero frames and a zero Laplacian give a zero next frame |
| Leapfrog.StableIffBelowInverseRoot | simulate/simulate.py:33-35 | the square-root-free test agrees with `sigma <= 1/sqrt(dims)` for the positive root |
| Leapfrog.NoAxesIsStable | simulate/simulate.py:35 | with no axes the bound is infinite, so every sigma is stable |
| Leapfrog.Sigma | simulate/simulate.py:34 | a zero grid step raises; otherwise `sigma * gridstep == wavespeed * timestep` |
| Leapfrog.Ceil | simulate/simulate.py:20 | `x <= ceil(x) < x + 1` |
| Leapfrog.TotalIterations | simulate/simulate.py:20 | a zero time step raises; otherwise `ceil(duration/timestep) + 1` |
| Leapfrog.StepsCoverDuration | simulate/simulate.py:20 | `total_iterations - 1` steps of a positive length reach `duration`, and one step fewer falls short |
| Leapfrog.Initialize | simulate/simulate.py:49-54 | two zero grids of the shape's size, at time 0 |
| Engine.EvaluableIffNumber | simulate/simulate.py:83-84 | whether `get_value` yields a number the grid can add does not depend on the time |
| Engine.FirstFailing | simulate/simulate.py:82-84 | every driver before the returned position applies (a number, at a location numpy can select), the one at it does not, and it is the end iff all drivers apply |
| Engine.AddInOrderIsInject | simulate/simulate.py:81-85 | adding the drivers one after the other leaves at each cell its old value plus the sum of the drivers sitting there |
| Engine.SumAtPermutation | simulate/simulate.py:82-84 | the sum at a cell depends only on the multiset of drivers |
| Engine.InjectOrderIndependent | simulate/simulate.py:81-85 | any reordering of the drivers gives the same grid |
| Engine.InjectElsewhere | simulate/simulate.py:84 | a cell with no driver keeps its value |
| Engine.AddAt | simulate/simulate.py:84 | `pressure[k] += x` changes only cell `k` |
| Engine.AddDrivers | simulate/simulate.py:82-85 | succeeds iff every driver yields a number at a location whose coordinates lie in `[-n, n)`; the in-place result is the drivers added in order at the cells they select; on error the first failing driver's exception (the one `get_value` raised, IndexError, or TypeError for a non-number), with the drivers before it already added |
| Engine.StateTime | simulate/simulate.py:93 | after `k` steps the clock is `k * timestep`, so step `k` injects at `(k-1) * timestep` |
| Engine.EdgesAreZero | simulate/simulate.py:91-92 | every frame after the first has zero edges, even where a driver sits on an edge |
| Engine.NoDriversStayZero | simulate/simulate.py:96-108 | with no drivers and a stencil mapping zero to zero, every frame stays zero |
| Engine.AddDriverCheckAsWritten | simulate/simulate.py:74-77 | raises for a wrong length, and for a location greater than `gridsize` in tuple order |
| Engine.AsWrittenAcceptsOutOfRange | simulate/simulate.py:76-84 | `(0, 99)`, `(16, 16)` and `(-1, 0)` pass the check on a 16 x 16 grid although none is a cell; numpy then refuses the first two and wraps the third to `(15, 0)` |
| Engine.AddDriverCheck | simulate/simulate.py:74-77 | raises for a wrong length; accepts exactly the in-bounds locations |
| Engine.CorrectedCheckIsStricter | simulate/simulate.py:76 | every location the corrected check accepts, the written one accepts |
| Engine.CorrectedDriversSelectTheirCell | simulate/simulate.py:76-84 | a driver the corrected check accepts is accepted by numpy and selects the cell its own index denotes, with no wrap |
| Engine.Simulate.constructor | simulate/simulate.py:12-23 | stores the parameters; `dims = len(gridsize)`; `ceil(duration/timestep) + 1` history rows, all zero; no drivers |
| Engine.Simulate.Create | simulate/simulate.py:12-23 | a zero time step raises ZeroDivisionError and a negative row count raises; otherwise a fresh simulator holding the five arguments, `ceil(duration/timestep)+1` zero history rows and no drivers (axis lengths are natural numbers, see Left out) |
| Engine.Simulate.GetParams | simulate/simulate.py:25-31 | exactly the five parameter names; `gridsize` holds the grid size as a tuple, and `gridstep`, `duration`, `timestep` and `wavespeed` each hold the scalar of the same name |
| Leapfrog.Stability | simulate/simulate.py:33-35 | `_is_stable`: a zero grid step raises, otherwise the CFL test on sigma |
| Engine.Simulate.CheckStability | simulate/simulate.py:37-39 | warns exactly when unstable and changes nothing |
| Engine.Simulate.AddDriver | simulate/simulate.py:71-79 | as written: the length check, then the tuple comparison; on success appends exactly this driver at the end, on error leaves the list unchanged |
| Engine.Simulate.ApplyBoundaryConditions | simulate/simulate.py:64-69 | IndexError iff some axis has length 0, with the grid unchanged; otherwise the edges are set to zero in place and the same array is returned |
| Engine.Simulate.ApplyDrivers | simulate/simulate.py:81-85 | as `AddDrivers`, over the engine's own drivers, whatever locations the as-written `add_driver` let in |
| Engine.Simulate.SimulationLoop | simulate/simulate.py:87-94 | succeeds iff every driver applies and no axis has length 0, returning `(curr, next, time + timestep)` where `next` is update, then injection, then zero edges; otherwise the first failing driver's exception, else the IndexError of setting the edges |
| Engine.Simulate.Run | simulate/simulate.py:96-109 | row 0 is zero and row `i` is the grid after `i` steps; with no rows it raises; a driver that does not apply, or an axis of length 0, raises at step 1 with only row 0 written |
| Engine.Simulate.Record | simulate/simulate.py:108 | writes one history row and keeps the rest |
| Engine.Simulate.Advance | simulate/simulate.py:103-108 | one loop pass: the next state, recorded in row `iteration`; a failing step raises and writes nothing |
| Engine.Simulate.RunSteps | simulate/simulate.py:103-109 | the for-loop keeps `(prev, curr) = State(i-1)` and `history[j] = State(j).curr` for `j < i`; a failing first step raises and writes nothing |
| Legacy.DriveIsDefaultCosine | simulate.py:55 | the fixed drive is the default `Cosine` waveform's value |
| Legacy.DriveTwoDimensional | simulate.py:55 | on a 2-D grid `pressure[1, 1]` is exactly the one cell `(1, 1)` |
| Legacy.LegacyStateTime | simulate.py:63 | `time == iteration * timestep` at the top of every pass |
| Legacy.LegacyEdgesAreZero | simulate.py:47-52 | every recorded grid has zero edges |
| Legacy.StepCount | simulate.py:72 | a positive pass count needs a positive time step and duration |
| Legacy.BeforeDurationIffBelowCount | simulate.py:72 | the clock after `k` passes is below `duration` iff `k < ceil(duration/timestep)` |
| Legacy.ClockNonPositive | simulate.py:72 | with a negative step the clock never exceeds 0 |
| Legacy.ClockFacts | simulate.py:72 | what the loop condition means after `k` passes, for either sign of the step |
| Legacy.LegacySimulate.constructor | simulate.py:8-17 | stores the parameters; `ceil(duration/timestep) + 1` zero history rows |
| Legacy.LegacySimulate.Create | simulate.py:8-17 | a zero time step raises ZeroDivisionError and a negative row count raises; otherwise a fresh simulator holding the five arguments and `ceil(duration/timestep)+1` zero history rows (axis lengths are natural numbers, see Left out) |
| Legacy.LegacySimulate.CheckStability | simulate.py:20-22 | returns the CFL boolean instead of warning; a zero grid step raises |
| Legacy.LegacySimulate.ApplyDriver | simulate.py:54-56 | adds `cos(2*pi*3*time)` at every cell of `pressure[1, 1]`; IndexError without such cells, leaving the grid unchanged |
| Legacy.LegacySimulate.SimulationLoop | simulate.py:58-64 | IndexError iff some axis has length 0; otherwise returns `(curr, update with zero edges, time + timestep)` and injects nothing |
| Legacy.LegacySimulate.Pass | simulate.py:74-77 | succeeds iff `[1, 1]` exists and no axis has length 0, the drive's IndexError coming first; on success the drive, then one step, from the driven grid |
| Legacy.LegacySimulate.Record | simulate.py:78 | writes one history row and keeps the rest |
| Legacy.LegacySimulate.Advance | simulate.py:74-79 | one pass recorded in row `iteration`; the pass's IndexError, or IndexError for a row past the end |
| Legacy.LegacySimulate.Run | simulate.py:66-80 | pass `k` writes row `k` with the grid after `k + 1` steps; there are `ceil(duration/timestep)` passes, so the last row stays zero; without cell `[1, 1]` it raises at the drive, and with an axis of length 0 at setting the edges |
| PyRepr.NatToString | simulate/data_io.py:13 | decimal digits with no leading zero |
| PyRepr.ParseNatToString | simulate/data_io.py:47 | reading the digits back gives the number |
| PyRepr.ParseNatLeadingZeros | simulate/data_io.py:7 | zeros in front do not change the number read |
| PyRepr.IntToString | simulate/data_io.py:13 | a minus sign exactly for negative numbers, then the digits of the magnitude |
| PyRepr.ParseIntToString | simulate/data_io.py:47 | `eval(str(i)) == i` |
| PyRepr.Pad4Parses | simulate/data_io.py:7 | the padded number reads back as itself, after its sign when negative |
| PyRepr.Pad4Injective | simulate/data_io.py:7 | different ids pad to different strings |
| PyRepr.TupleToString | simulate/data_io.py:12-13 | `str(t)` is parenthesised |
| PyRepr.ParseJoinItems | simulate/data_io.py:47 | the comma-separated items read back as the items |
| PyRepr.ParseTupleToString | simulate/data_io.py:47 | `tuple(eval(str(t))) == t` for every integer tuple, including `()` and `(x,)` |
| Archive.GroupNameInjective | simulate/data_io.py:7 | different ids give different `simulation_NNNN` groups |
| Archive.DriverNumberOfName | simulate/data_io.py:18 | the number in `driver_i` is `i` |
| Archive.DriverNameInjective | simulate/data_io.py:18 | different drivers get different subgroup names |
| Archive.ParamAttrs | simulate/data_io.py:10-14 | one attribute per parameter: a tuple as `str(tuple)`, a number as it is |
| Archive.ParamOrderIsParamNames | simulate/simulate.py:26-30 | the dictionary lists exactly the five parameter names |
| Archive.FieldAttrs | simulate/data_io.py:24-25 | one numeric attribute per waveform field |
| Archive.FirstClassRef | simulate/data_io.py:17-25 | the first driver whose slot holds a class object, or the end iff there is none |
| Archive.NumberedAt | simulate/data_io.py:17-18 | `driver_k` is present iff `k < n`, and it holds the `k`-th item's attributes |
| Archive.DriverGroupsAt | simulate/data_io.py:17-25 | subgroup `driver_k` exists iff `k < n` and holds driver `k`'s class name and fields, and no location |
| Archive.DriverGroupsKeys | simulate/data_io.py:17-18 | every subgroup name is some `driver_k` with `k < n` |
| Archive.StoreParams | simulate/data_io.py:10-14 | the loop over the parameters writes exactly the parameter attributes |
| Archive.StoreDrivers | simulate/data_io.py:16-25 | one subgroup per driver in list order, holding its class name and fields; fails iff some slot holds a class object, after that driver's subgroup and class name are written |
| Archive.Save | simulate/data_io.py:5-25 | an existing group name raises and changes nothing; otherwise exactly one group is added, holding the history, the parameters and the driver subgroups without locations, or the partial subgroups on failure |
| Archive.Kwargs | simulate/data_io.py:42-43 | every attribute except `location` and `waveform_class`, with its value |
| Archive.LoadDriver | simulate/data_io.py:35-48 | a missing class name raises KeyError; an unregistered one fails; success implies a `location` string that parses to the driver's location, a class of the stored name, and every keyword a number the instance holds as that field |
| Archive.KwargsOfWaveform | simulate/data_io.py:42-46 | the keywords recovered from a waveform's attributes are exactly its fields |
| Archive.KwargsIgnoreLocation | simulate/data_io.py:42-43 | the location attribute is never a keyword |
| Archive.LoadDriverRoundTrip | simulate/data_io.py:38-48 | a subgroup written with its location loads back as the same driver |
| Archive.AsWrittenLoadFails | simulate/data_io.py:47 | a subgroup as the save writes it fails to load with KeyError `'location'` |
| Archive.LoadAll | simulate/data_io.py:34-48 | succeeds iff every visited subgroup loads, with one driver per subgroup in iteration order |
| Archive.LoadAllStopsAtError | simulate/data_io.py:34-48 | the first failure ends the loop with that error |
| Archive.LoadSimulation | simulate/data_io.py:28-53 | a missing group raises KeyError; a group without `drivers` loads as `[]` |
| Archive.Load | simulate/data_io.py:28-53 | the loop over the subgroups computes `LoadSimulation` |
| Archive.NumberedRoundTrip | simulate/data_io.py:34-48 | in any iteration order, each subgroup loads as the item its name numbers |
| Archive.NumberedCount | simulate/data_io.py:17-18 | an enumeration of the subgroups has one name per driver |
| Archive.NumberedInOrder | simulate/data_io.py:17-18 | the names in write order enumerate the subgroups |
| Archive.SaveLoadRoundTrip | simulate/data_io.py:5-53 | a save that also wrote each location, with registered waveforms, loads back in any order, subgroup `driver_k` yielding driver `k` |
| Archive.SaveLoadInOrder | simulate/data_io.py:5-53 | loading that group in write order gives back the driver list itself |
| Archive.AsWrittenSaveLoadFails | simulate/data_io.py:19-47 | loading back the group `Save` adds, for a run with at least one driver, raises KeyError `'location'` in any order |
| Boundary.Scaled | boundary.py:16 | every cell of the region is multiplied by `c`, every other cell keeps its value, and the length is kept |
| Boundary.ScaledByZero | boundary.py:7 | with the default coefficient 0 the region is cleared |
| Boundary.ScaledByOne | boundary.py:16 | coefficient 1 leaves the grid unchanged |
| Boundary.ScaledTwice | boundary.py:15-17 | applying twice with `c` is applying once with `c * c` |
| Boundary.WholeGridScaled | boundary.py:6 | region `None` (numpy's new axis) scales every cell |
| Boundary.Boundary.constructor | boundary.py:4-7 | no region yet, coefficient 0 |
| Boundary.Boundary.SetBoundary | boundary.py:9-10 | replaces the region only |
| Boundary.Boundary.SetBoundaryCondition | boundary.py:12-13 | replaces the coefficient only |
| Boundary.Boundary.ApplyBoundaryCondition | boundary.py:15-17 | an index outside the grid raises and writes nothing; otherwise region cells are multiplied in place, other cells are unchanged, and the same array is returned |
| DatasetFormat.SortPaths | inference/datasetformat.py:14 | a permutation of the listing |
| DatasetFormat.SortPathsSorted | inference/datasetformat.py:14 | ascending in Python's string order |
| DatasetFormat.SortedUnique | inference/datasetformat.py:14 | two sorted lists with the same items are equal |
| DatasetFormat.New | inference/datasetformat.py:13-16 | an empty listing raises FileNotFoundError; otherwise the paths are the listing, sorted |
| DatasetFormat.NewIgnoresListingOrder | inference/datasetformat.py:14 | the stored paths depend only on which files were found |
| DatasetFormat.Len | inference/datasetformat.py:18-19 | the number of paths |
| DatasetFormat.LenOfNew | inference/datasetformat.py:13-19 | a new dataset has one item per file found, at least one |
| DatasetFormat.PathAt | inference/datasetformat.py:22 | Python indexing: negative indices count from the end; outside the list raises IndexError |
| DatasetFormat.FlattenRowMajor | inference/datasetformat.py:25-26 | `reshape(-1)` puts item `j` of row `i` at `i * m + j` |
| DatasetFormat.FlattenLength | inference/datasetformat.py:26 | the flattened length is rows times columns |
| DatasetFormat.SpeakerLabels | inference/datasetformat.py:25-26 | `[[xL, yL], [xR, yR]]` flattens to `[xL, yL, xR, yR]` |
| DatasetFormat.RoomLabels | inference/datasetformat.py:28-31 | unpacking anything but four numbers raises ValueError; otherwise four labels |
| DatasetFormat.RoomLabelsInvert | inference/datasetformat.py:29-30 | `xmin = cx - w/2`, `xmax = cx + w/2`, and so for y |
| DatasetFormat.RoomRectInvert | inference/datasetformat.py:29-30 | every centre-and-size label comes from its rectangle |
| DatasetFormat.RoomLabelsOrdered | inference/datasetformat.py:29-30 | an ordered rectangle has non-negative width and height, and its centre inside it |
| DatasetFormat.GetItem | inference/datasetformat.py:21-33 | fails iff the index is out of range or the rectangle does not unpack; returns the audio, the flattened speakers and the room labels |
| Interactive.Scrolled | simulation/interactive_setup.py:95-99 | a step up adds one; any other step subtracts one but never goes below 0 |
| Interactive.ScrollKeepsBrushNonNegative | simulation/interactive_setup.py:95-99 | a non-negative brush stays non-negative under any run of scrolls |
| Interactive.AddLocation | simulation/interactive_setup.py:69-71 | appends only an absent location, so the list never holds duplicates |
| Interactive.InteractiveSetup.constructor | simulation/interactive_setup.py:12-17 | an all-zero grid, no drivers, not drawing |
| Interactive.InteractiveSetup.DrawObstacleAtPoint | simulation/interactive_setup.py:108-118 | outside the grid nothing changes; a non-square grid refuses the mask; otherwise exactly the disk cells `[a][b]` with `(b-ix)^2 + (a-iy)^2 <= brush^2` become 1 |
| Interactive.InteractiveSetup.OnPress | simulation/interactive_setup.py:59-74 | ignored outside the axes; button 1 starts drawing and paints; button 3 adds the location if absent |
| Interactive.InteractiveSetup.OnRelease | simulation/interactive_setup.py:76-79 | releasing button 1 stops drawing; nothing else changes |
| Interactive.InteractiveSetup.OnMotion | simulation/interactive_setup.py:83-87 | paints only while drawing and inside the axes |
| Interactive.InteractiveSetup.OnScroll | simulation/interactive_setup.py:91-99 | ignored outside the axes; otherwise the brush follows `Scrolled` |
| Interactive.InteractiveSetup.CombinedDisplayGrid | simulation/interactive_setup.py:120-126 | a fresh copy where each in-grid driver cell `[x][y]` is 2 and every other cell is the obstacle grid's 0 or 1 |
| Interactive.InteractiveSetup.Handle | simulation/interactive_setup.py:51-56 | the new state is `Apply` of the old one: the change the callback for that event makes; painted cells stay painted, listed drivers stay listed, and only a scroll changes the brush |
| Interactive.InteractiveSetup.Setup | simulation/interactive_setup.py:134-138 | the final state is `ApplyAll` of the events from the initial one; returns the editor's own grid and list, still holding only 0/1 and no duplicate drivers |
| Interactive.ApplyKeeps | simulation/interactive_setup.py:59-116 | every event keeps the grid's shape and 0/1 cells and the driver list free of repeats; painted cells stay painted and listed drivers stay listed |
| Interactive.ApplyAllKeeps | simulation/interactive_setup.py:59-116 | the same over any run of events |
| Interactive.ApplyAllBrush | simulation/interactive_setup.py:91-99 | the brush after a run of events is the scroll rule applied to the in-axes scroll steps alone |
| Interactive.ApplyAllLocations | simulation/interactive_setup.py:66-71 | after a run of events the driver list holds exactly the old drivers and every location right-clicked inside the axes |

## Left out

**Simulators**
- Engine.Simulate.Run: requires a non-zero grid step.
  - With `gridstep == 0`, numpy divides the Laplacian array by zero and fills the grid with infinities and NaNs. Non-finite values are not reals.
  - The same holds for `Engine.Simulate.SimulationLoop`, `Legacy.LegacySimulate.Run` and the other step methods.
- Engine.Simulate.Create: the row count is the exact real `ceil(duration/timestep) + 1`, so float rounding of the quotient is not modelled.
- Engine.Simulate.Create: axis lengths are natural numbers, so the ValueError `np.zeros` raises for a negative axis length is not modelled.
- Legacy.LegacySimulate.Create: axis lengths are natural numbers, so the ValueError `np.zeros` raises for a negative axis length is not modelled.
- Legacy.LegacySimulate.Run: the clock is exact, so float rounding cannot add or drop a pass of `while time < duration`.
- `print`, `tqdm` and `warnings.warn` are not modelled; `check_stability` reports whether it would warn.
- Sensors (`add_sensor`, sensor recording) are not modelled. `Setup.Sensor` is only the record; the code that fills it is not part of this model.
- Integer `dtype` arrays and `float32` casts are not modelled: all grids are real.
- Engine.AddDrivers: a location with fewer coordinates than the grid has axes would select a whole sub-array in numpy. The model requires one coordinate per axis, which the length check of `add_driver` guarantees for every driver it admits.
- scipy's Laplacian of a grid with no cells, and numpy's edge mask of a zero-dimensional grid, are not modelled beyond the `Stencil` parameter and the edge predicate.

**Archive**
- HDF5, gzip and h5py are an in-memory map of groups to attribute maps.
  - h5py's iteration order is an input of `Load`.
  - The history dataset is kept as the sequence of rows.
- Archive.Save: on a driver whose slot holds a class object, the model keeps only the `waveform_class` attribute of the partial subgroup. Which further class attributes h5py stores before it refuses one depends on the Python version.
- Archive.LoadDriver: a string-valued attribute other than `location` and `waveform_class` is reported as `NonNumericField`. Python would pass it to the dataclass, which does not check field types.
- PyRepr.ParseInner: `eval` is modelled only on integer-tuple text: the canonical `str` form plus a trailing comma. Any other text counts as a bad location, where Python would evaluate arbitrary expressions.

**Setup and datasets**
- `LocationGenerator` and the numpy random draws are inputs of `Setup.GetRandomCosine`, constrained to their ranges.
- The draws are one-element arrays in Python; here they are scalars.
- `np.load`, `glob` and tensor construction are inputs or are not modelled: the directory listing is a parameter of `DatasetFormat.New` and the loader one of `DatasetFormat.GetItem`.

**Interactive editor**
- The figure, colour map, ticks, `imshow` redraws, titles and `plt.show` are not modelled.
- The rounding of `event.xdata` is not modelled: events carry integers.
- The editor is modelled for two-dimensional grids only.
- Interactive.InteractiveSetup.Handle: a callback that raises is skipped, as matplotlib's callback registry prints the exception and carries on.

**Other files**
- Whole files are not modelled: the visualisation modules, the torch network and training scripts, and the experiment scripts.
- The Laplacian's stencil and boundary mode inside scipy are not modelled; it is the `Leapfrog.Stencil` parameter.

## Findings

| source | as written | input that shows it | evidently intended | confidence | as-written member | corrected member |
|---|---|---|---|---|---|---|
| simulate/simulate.py:76 | `driver.location > self.gridsize` compares tuples lexicographically | `Driver((0, 99))` on a `(16, 16)` grid is accepted; so are `(16, 16)` and `(-1, 0)` | reject any coordinate outside `[0, gridsize[k])` | high, not executed | Engine.AsWrittenAcceptsOutOfRange | Engine.AddDriverCheck |
| simulate/data_io.py:19-25 | the save writes `waveform_class` and the waveform fields but never `location`, which the load reads at line 47 | saving any run with one `Cosine` driver, then loading it, raises KeyError `'location'` | the save also writes `str(driver.location)` | high, not executed | Archive.AsWrittenSaveLoadFails | Archive.SaveLoadRoundTrip |

The as-written check is `Engine.AddDriverCheckAsWritten`, and `Engine.Simulate.AddDriver` uses it. The drivers it admits are applied as numpy would: `(0, 99)` and `(16, 16)` make the first step raise IndexError, and `(-1, 0)` adds into cell `(15, 0)` (`Engine.AsWrittenAcceptsOutOfRange`). `Engine.CorrectedCheckIsStricter` shows that the correction only rejects more inputs, and `Engine.CorrectedDriversSelectTheirCell` that every driver it admits lands on its own cell.

The as-written subgroups are `Archive.DriverAttrsAsWritten`, and they are what `Archive.Save` writes (`Archive.DriverGroups`). `Archive.AsWrittenLoadFails` shows the failure for one driver, and `Archive.AsWrittenSaveLoadFails` for the group `Archive.Save` adds. The corrected subgroups are `Archive.DriverAttrs`, gathered in `Archive.IntendedSavedGroup`. `Archive.LoadDriverRoundTrip`, `Archive.SaveLoadRoundTrip` and `Archive.SaveLoadInOrder` prove the round trip for them.
