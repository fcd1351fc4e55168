/**
 * Saving a run into an HDF5 archive and loading its drivers back
 * (simulate/data_io.py).
 *
 * The open HDF5 file is a `File` object holding its top-level groups by
 * name. A `simulation_NNNN` group holds the history dataset, one attribute
 * per run parameter and, when present, the `drivers` group with one
 * attribute map per `driver_i` subgroup. h5py's order of iteration over the
 * subgroups is an input of `Load`: any enumeration of their names.
 */
module Archive {
  import opened Wrappers
  import opened Waveforms
  import opened Setup
  import opened PyRepr
  import Engine

  /** An HDF5 attribute value: a Python `str` or a number. */
  datatype Attr = StrAttr(s: string) | NumAttr(x: real)

  type Attrs = map<string, Attr>

  /** A `simulation_NNNN` group. */
  datatype SimGroup = SimGroup(history: seq<seq<real>>, attrs: Attrs, drivers: Option<map<string, Attrs>>)

  /** The open HDF5 file. */
  class File {
    var groups: map<string, SimGroup>

    constructor ()
      ensures groups == map[]
    {
      groups := map[];
    }
  }

  /** `f'simulation_{simulation_id:04d}'`. */
  function GroupName(id: int): (name: string)
  {
    "simulation_" + Pad4(id)
  }

  /** Two runs saved under different ids get different groups. */
  lemma GroupNameInjective(a: int, b: int)
    requires GroupName(a) == GroupName(b)
    ensures a == b
  {
    assert GroupName(a)[11..] == Pad4(a) && GroupName(b)[11..] == Pad4(b);
    Pad4Injective(a, b);
  }

  /** `f'driver_{i}'`. */
  function DriverName(i: nat): (name: string)
    ensures |name| >= 8 && AllDigits(name[7..])
  {
    var name := "driver_" + NatToString(i);
    assert name[7..] == NatToString(i);
    name
  }

  /** The number a `driver_i` name carries. */
  function DriverNumber(name: string): nat
    requires |name| >= 7 && AllDigits(name[7..])
  {
    ParseNat(name[7..])
  }

  lemma DriverNumberOfName(i: nat)
    ensures DriverNumber(DriverName(i)) == i
  {
    assert DriverName(i)[7..] == NatToString(i);
    ParseNatToString(i);
  }

  lemma DriverNameInjective(a: nat, b: nat)
    requires a != b
    ensures DriverName(a) != DriverName(b)
  {
    DriverNumberOfName(a);
    DriverNumberOfName(b);
  }

  /** How `sim_group.attrs[key] = value` stores a parameter: a tuple as `str(value)`, a number as it is. */
  function Stored(v: Engine.ParamValue): Attr
  {
    match v
    case TupleParam(t) => StrAttr(TupleToString(t))
    case ScalarParam(x) => NumAttr(x)
  }

  /** The attributes of a simulation group: one per parameter. */
  function ParamAttrs(params: map<string, Engine.ParamValue>): (a: Attrs)
    ensures a.Keys == params.Keys
    ensures forall k :: k in a ==> a[k] == Stored(params[k])
  {
    map k | k in params :: Stored(params[k])
  }

  /** The keys of `get_params()` in the order the dictionary literal lists them. */
  const ParamOrder: seq<string> := ["gridsize", "gridstep", "duration", "timestep", "wavespeed"]

  lemma ParamOrderIsParamNames()
    ensures forall k :: k in ParamOrder <==> k in Engine.ParamNames
  {
  }

  /** The numbers of a waveform's `__dict__`, as attributes. */
  function FieldAttrs(w: Waveform): (a: Attrs)
    ensures a.Keys == FieldNames(ClassOf(w))
    ensures forall k :: k in a ==> a[k] == NumAttr(Fields(w)[k])
  {
    map k | k in Fields(w) :: NumAttr(Fields(w)[k])
  }

  /** The waveform's class name and its fields. */
  function WaveformAttrs(w: Waveform): Attrs
  {
    FieldAttrs(w)["waveform_class" := StrAttr(ClassName(ClassOf(w)))]
  }

  /** What the loop body of the save writes into `driver_i`: no location. */
  function DriverAttrsAsWritten(d: Driver): Attrs
    requires d.waveform.Instance?
  {
    WaveformAttrs(d.waveform.w)
  }

  /** The subgroup the load evidently expects: also the driver's location, as `str(location)`. */
  function DriverAttrs(d: Driver): (a: Attrs)
    requires d.waveform.Instance?
  {
    WaveformAttrs(d.waveform.w)["location" := StrAttr(TupleToString(d.location))]
  }

  predicate AllInstances(ds: seq<Driver>)
  {
    forall i :: 0 <= i < |ds| ==> ds[i].waveform.Instance?
  }

  /** The position of the first driver whose waveform is a class object, or `|ds|`. */
  function FirstClassRef(ds: seq<Driver>): (i: nat)
    ensures i <= |ds| && forall j :: 0 <= j < i ==> ds[j].waveform.Instance?
    ensures i < |ds| ==> ds[i].waveform.ClassRef?
    ensures i == |ds| <==> AllInstances(ds)
  {
    if ds == [] then 0 else if ds[0].waveform.ClassRef? then 0 else 1 + FirstClassRef(ds[1..])
  }

  /** `driver_0` to `driver_{n-1}`, the subgroup `driver_i` holding `f(xs[i])`. */
  function Numbered<D, V>(xs: seq<D>, n: nat, f: D --> V): map<string, V>
    requires n <= |xs| && forall i :: 0 <= i < n ==> f.requires(xs[i])
  {
    if n == 0 then map[] else Numbered(xs, n - 1, f)[DriverName(n - 1) := f(xs[n - 1])]
  }

  lemma {:induction false} NumberedAt<D, V>(xs: seq<D>, n: nat, f: D --> V, k: nat)
    requires n <= |xs| && forall i :: 0 <= i < n ==> f.requires(xs[i])
    ensures DriverName(k) in Numbered(xs, n, f) <==> k < n
    ensures k < n ==> Numbered(xs, n, f)[DriverName(k)] == f(xs[k])
  {
    if n > 0 {
      NumberedAt(xs, n - 1, f, k);
      if k != n - 1 {
        DriverNameInjective(k, n - 1);
      }
    }
  }

  lemma {:induction false} NumberedKeys<D, V>(xs: seq<D>, n: nat, f: D --> V, name: string)
    requires n <= |xs| && forall i :: 0 <= i < n ==> f.requires(xs[i])
    requires name in Numbered(xs, n, f)
    ensures exists k :: 0 <= k < n && name == DriverName(k)
  {
    if name != DriverName(n - 1) {
      NumberedKeys(xs, n - 1, f, name);
    }
  }

  /** The subgroups the save writes for the first `n` drivers: class name and fields, no location. */
  function DriverGroups(ds: seq<Driver>, n: nat): map<string, Attrs>
    requires n <= FirstClassRef(ds)
  {
    Numbered(ds, n, DriverAttrsAsWritten)
  }

  lemma DriverGroupsAt(ds: seq<Driver>, n: nat, k: nat)
    requires n <= FirstClassRef(ds)
    ensures DriverName(k) in DriverGroups(ds, n) <==> k < n
    ensures k < n ==> DriverGroups(ds, n)[DriverName(k)] == DriverAttrsAsWritten(ds[k])
  {
    NumberedAt(ds, n, DriverAttrsAsWritten, k);
  }

  lemma DriverGroupsKeys(ds: seq<Driver>, n: nat, name: string)
    requires n <= FirstClassRef(ds)
    requires name in DriverGroups(ds, n)
    ensures exists k :: 0 <= k < n && name == DriverName(k)
  {
    NumberedKeys(ds, n, DriverAttrsAsWritten, name);
  }

  /** The group the save writes for a run whose drivers all hold waveform instances. */
  function SavedGroup(history: seq<seq<real>>, params: map<string, Engine.ParamValue>, ds: seq<Driver>): SimGroup
    requires AllInstances(ds)
  {
    SimGroup(history, ParamAttrs(params), Some(DriverGroups(ds, |ds|)))
  }

  /** The subgroups the load evidently expects: each driver's attributes and its location. */
  function IntendedGroups(ds: seq<Driver>): map<string, Attrs>
    requires AllInstances(ds)
  {
    Numbered(ds, |ds|, DriverAttrs)
  }

  /** The group a save that also wrote each location would leave. */
  function IntendedSavedGroup(history: seq<seq<real>>, params: map<string, Engine.ParamValue>, ds: seq<Driver>): SimGroup
    requires AllInstances(ds)
  {
    SimGroup(history, ParamAttrs(params), Some(IntendedGroups(ds)))
  }

  /** What is written of a driver whose slot holds a class object before HDF5 refuses its next attribute. */
  const ClassRefAttrs: Attrs := map["waveform_class" := StrAttr("type")]

  /** The subgroups written when driver `i` is the first whose slot holds a class object. */
  function PartialGroups(ds: seq<Driver>, i: nat): map<string, Attrs>
    requires i < |ds| && i <= FirstClassRef(ds)
  {
    DriverGroups(ds, i)[DriverName(i) := ClassRefAttrs]
  }

  datatype SaveError =
    | GroupExists        // `create_group` of a name already in the file raises ValueError
    | Unstorable(i: nat) // the `__dict__` of a class object holds values HDF5 cannot store

  /** The loop over `get_params()`, one attribute per parameter. */
  method StoreParams(params: map<string, Engine.ParamValue>) returns (attrs: Attrs)
    requires params.Keys == Engine.ParamNames
    ensures attrs == ParamAttrs(params)
  {
    attrs := map[];
    for j := 0 to |ParamOrder|
      invariant forall k :: k in attrs <==> k in ParamOrder[..j]
      invariant forall k :: k in attrs ==> attrs[k] == Stored(params[k])
    {
      attrs := attrs[ParamOrder[j] := Stored(params[ParamOrder[j]])];
    }
    assert ParamOrder[..|ParamOrder|] == ParamOrder;
  }

  /** The loop over the drivers, one subgroup each, stopping at the first class object. */
  method StoreDrivers(ds: seq<Driver>) returns (subgroups: map<string, Attrs>, failed: bool)
    ensures failed <==> !AllInstances(ds)
    ensures !failed ==> subgroups == DriverGroups(ds, |ds|)
    ensures failed ==> subgroups == PartialGroups(ds, FirstClassRef(ds))
  {
    subgroups := map[];
    for i := 0 to |ds|
      invariant i <= FirstClassRef(ds)
      invariant subgroups == DriverGroups(ds, i)
    {
      FirstClassRefStep(ds, i);
      if ds[i].waveform.ClassRef? {
        subgroups := subgroups[DriverName(i) := ClassRefAttrs];
        return subgroups, true;
      }
      DriverGroupsNext(ds, i);
      subgroups := subgroups[DriverName(i) := DriverAttrsAsWritten(ds[i])];
    }
    return subgroups, false;
  }

  /** Driver `i`, reached with no class object before it, is the first class object or not one. */
  lemma FirstClassRefStep(ds: seq<Driver>, i: nat)
    requires i < |ds| && i <= FirstClassRef(ds)
    ensures ds[i].waveform.ClassRef? ==> FirstClassRef(ds) == i
    ensures ds[i].waveform.Instance? ==> i + 1 <= FirstClassRef(ds)
  {
  }

  lemma DriverGroupsNext(ds: seq<Driver>, i: nat)
    requires i < FirstClassRef(ds)
    ensures DriverGroups(ds, i + 1) == DriverGroups(ds, i)[DriverName(i) := DriverAttrsAsWritten(ds[i])]
  {
  }

  /**
   * `save_full_simulation_results`. Each driver's subgroup holds its class
   * name and fields but not its location. A driver whose waveform slot holds the class
   * `Cosine` itself fails after its subgroup and its `waveform_class`
   * attribute (`'type'`) are written.
   */
  method Save(sim: Engine.Simulate, file: File, id: int) returns (r: Result<(), SaveError>)
    modifies file
    ensures GroupName(id) in old(file.groups) ==> r == Err(GroupExists) && file.groups == old(file.groups)
    ensures r.Ok? <==> GroupName(id) !in old(file.groups) && AllInstances(sim.drivers)
    ensures r.Ok? ==> file.groups == old(file.groups)[GroupName(id) := SavedGroup(sim.history[..], sim.GetParams(), sim.drivers)]
    ensures GroupName(id) !in old(file.groups) && r.Err? ==>
              var i := FirstClassRef(sim.drivers);
              r == Err(Unstorable(i))
              && file.groups == old(file.groups)[GroupName(id) :=
                   SimGroup(sim.history[..], ParamAttrs(sim.GetParams()), Some(PartialGroups(sim.drivers, i)))]
  {
    var name := GroupName(id);
    if name in file.groups {
      return Err(GroupExists);
    }
    var attrs := StoreParams(sim.GetParams());
    var subgroups, failed := StoreDrivers(sim.drivers);
    file.groups := file.groups[name := SimGroup(sim.history[..], attrs, Some(subgroups))];
    if failed {
      return Err(Unstorable(FirstClassRef(sim.drivers)));
    }
    return Ok(());
  }

  datatype LoadError =
    | MissingGroup             // `archive_file[sim_id]` raises KeyError
    | MissingAttribute(key: string)
    | UnknownClass             // `waveform_registry[name]` raises KeyError
    | NonNumericField          // an attribute the model's waveforms cannot hold
    | BadKeywords              // the class refuses a keyword: TypeError
    | BadLocation              // `tuple(eval(...))` of the location fails

  /** The keyword arguments: every attribute except `location` and `waveform_class`. */
  function Kwargs(attrs: Attrs): (kw: Attrs)
    ensures kw.Keys == attrs.Keys - {"location", "waveform_class"}
    ensures forall k :: k in kw ==> kw[k] == attrs[k]
  {
    attrs - {"location", "waveform_class"}
  }

  predicate AllNumbers(kw: Attrs)
  {
    forall k :: k in kw ==> kw[k].NumAttr?
  }

  function Numbers(kw: Attrs): (m: map<string, real>)
    requires AllNumbers(kw)
    ensures m.Keys == kw.Keys && forall k :: k in m ==> NumAttr(m[k]) == kw[k]
  {
    map k | k in kw :: kw[k].x
  }

  /** The body of the load loop for one subgroup, step by step. */
  function LoadDriver(attrs: Attrs): (r: Result<Driver, LoadError>)
    ensures "waveform_class" !in attrs ==> r == Err(MissingAttribute("waveform_class"))
    ensures "waveform_class" in attrs && !(attrs["waveform_class"].StrAttr? && attrs["waveform_class"].s in Registry)
            ==> r == Err(UnknownClass)
    ensures r.Ok? ==> "location" in attrs && attrs["location"].StrAttr?
                      && ParseTuple(attrs["location"].s) == Some(r.value.location)
    ensures r.Ok? ==> r.value.waveform.Instance?
                      && ClassName(ClassOf(r.value.waveform.w)) == attrs["waveform_class"].s
    ensures r.Ok? ==> AllNumbers(Kwargs(attrs))
                      && forall k :: k in Kwargs(attrs) ==>
                           k in Fields(r.value.waveform.w) && Fields(r.value.waveform.w)[k] == Kwargs(attrs)[k].x
  {
    if "waveform_class" !in attrs then Err(MissingAttribute("waveform_class"))
    else
      var c := attrs["waveform_class"];
      if !(c.StrAttr? && c.s in Registry) then Err(UnknownClass)
      else
        var kw := Kwargs(attrs);
        if !AllNumbers(kw) then Err(NonNumericField)
        else
          match Construct(Registry[c.s], Numbers(kw))
          case Err(_) => Err(BadKeywords)
          case Ok(w) =>
            RegistryNamesItsClasses();
            if "location" !in attrs then Err(MissingAttribute("location"))
            else
              var loc := attrs["location"];
              if !loc.StrAttr? then Err(BadLocation)
              else
                match ParseTuple(loc.s)
                case None => Err(BadLocation)
                case Some(t) => Ok(Driver(t, Instance(w)))
  }

  /** The keyword arguments of a waveform's attributes are exactly its fields. */
  lemma KwargsOfWaveform(w: Waveform)
    ensures AllNumbers(Kwargs(WaveformAttrs(w))) && Numbers(Kwargs(WaveformAttrs(w))) == Fields(w)
  {
    var kw := Kwargs(WaveformAttrs(w));
    assert kw.Keys == Fields(w).Keys;
  }

  /** The location is not a keyword argument. */
  lemma KwargsIgnoreLocation(a: Attrs, v: Attr)
    ensures Kwargs(a["location" := v]) == Kwargs(a)
  {
  }

  /** For the registered classes, a subgroup written with its location loads back as the same driver. */
  lemma LoadDriverRoundTrip(d: Driver)
    requires d.waveform.Instance? && ClassName(ClassOf(d.waveform.w)) in Registry
    ensures LoadDriver(DriverAttrs(d)) == Ok(d)
  {
    var w := d.waveform.w;
    var attrs := DriverAttrs(d);
    RegistryNamesItsClasses();
    var c := attrs["waveform_class"];
    assert c == StrAttr(ClassName(ClassOf(w))) && c.s in Registry;
    assert Registry[c.s] == ClassOf(w);
    KwargsIgnoreLocation(WaveformAttrs(w), StrAttr(TupleToString(d.location)));
    KwargsOfWaveform(w);
    var kw := Kwargs(attrs);
    assert AllNumbers(kw) && Numbers(kw) == Fields(w);
    ConstructFromFields(w);
    assert Construct(Registry[c.s], Numbers(kw)) == Ok(w);
    ParseTupleToString(d.location);
    assert attrs["location"] == StrAttr(TupleToString(d.location));
  }

  /** As written, loading any subgroup of a registered waveform raises KeyError `'location'`. */
  lemma AsWrittenLoadFails(d: Driver)
    requires d.waveform.Instance? && ClassName(ClassOf(d.waveform.w)) in Registry
    ensures LoadDriver(DriverAttrsAsWritten(d)) == Err(MissingAttribute("location"))
  {
    var w := d.waveform.w;
    RegistryNamesItsClasses();
    KwargsOfWaveform(w);
    ConstructFromFields(w);
    assert Registry[ClassName(ClassOf(w))] == ClassOf(w);
  }

  /** `order` lists each name of `names` exactly once, as h5py's iteration over a group does. */
  predicate Enumerates(order: seq<string>, names: set<string>)
  {
    && (forall j :: 0 <= j < |order| ==> order[j] in names)
    && (forall k :: k in names ==> k in order)
    && (forall i, j :: 0 <= i < j < |order| ==> order[i] != order[j])
  }

  /** The loop over the first `n` subgroups in iteration order, appending each loaded item. */
  function LoadAll<A, T, E>(groups: map<string, A>, order: seq<string>, n: nat, load: A -> Result<T, E>): (r: Result<seq<T>, E>)
    requires n <= |order| && forall j :: 0 <= j < |order| ==> order[j] in groups
    ensures r.Ok? ==> |r.value| == n
    ensures r.Ok? <==> forall j :: 0 <= j < n ==> load(groups[order[j]]).Ok?
    ensures r.Ok? ==> forall j :: 0 <= j < n ==> r.value[j] == load(groups[order[j]]).value
  {
    if n == 0 then Ok([])
    else
      match LoadAll(groups, order, n - 1, load)
      case Err(e) => Err(e)
      case Ok(xs) =>
        match load(groups[order[n - 1]])
        case Err(e) => Err(e)
        case Ok(d) => Ok(xs + [d])
  }

  /** The first failure ends the loop: loading more subgroups gives the same error. */
  lemma {:induction false} LoadAllStopsAtError<A, T, E>(groups: map<string, A>, order: seq<string>, n: nat, m: nat,
                                                          load: A -> Result<T, E>)
    requires n <= m <= |order| && forall j :: 0 <= j < |order| ==> order[j] in groups
    requires LoadAll(groups, order, n, load).Err?
    ensures LoadAll(groups, order, m, load) == LoadAll(groups, order, n, load)
  {
    if m > n {
      LoadAllStopsAtError(groups, order, n, m - 1, load);
    }
  }

  /** `load_simulation_from_archive(archive_file, sim_id)`. */
  function LoadSimulation(groups: map<string, SimGroup>, simId: string, order: seq<string>): (r: Result<seq<Driver>, LoadError>)
    requires simId in groups && groups[simId].drivers.Some? ==> Enumerates(order, groups[simId].drivers.value.Keys)
    ensures simId !in groups ==> r == Err(MissingGroup)
    ensures simId in groups && groups[simId].drivers.None? ==> r == Ok([])
  {
    if simId !in groups then Err(MissingGroup)
    else
      match groups[simId].drivers
      case None => Ok([])
      case Some(subs) => LoadAll(subs, order, |order|, LoadDriver)
  }

  /** The load as a loop over the subgroups, checked against `LoadSimulation`. */
  method Load(file: File, simId: string, order: seq<string>) returns (r: Result<seq<Driver>, LoadError>)
    requires simId in file.groups && file.groups[simId].drivers.Some? ==>
               Enumerates(order, file.groups[simId].drivers.value.Keys)
    ensures r == LoadSimulation(file.groups, simId, order)
  {
    if simId !in file.groups {
      return Err(MissingGroup);
    }
    var group := file.groups[simId];
    var loaded: seq<Driver> := [];
    if group.drivers.Some? {
      var subs := group.drivers.value;
      for j := 0 to |order|
        invariant LoadAll(subs, order, j, LoadDriver) == Ok(loaded)
      {
        var d := LoadDriver(subs[order[j]]);
        if d.Err? {
          LoadAllStopsAtError(subs, order, j + 1, |order|, LoadDriver);
          return Err(d.error);
        }
        loaded := loaded + [d.value];
      }
    }
    return Ok(loaded);
  }

  /**
   * Loading numbered subgroups with a loader that inverts the writer, in
   * any enumeration of their names, gives the item each name numbers.
   */
  lemma NumberedRoundTrip<D, A, E>(xs: seq<D>, f: D --> A, load: A -> Result<D, E>, order: seq<string>)
    requires forall i :: 0 <= i < |xs| ==> f.requires(xs[i]) && load(f(xs[i])) == Ok(xs[i])
    requires Enumerates(order, Numbered(xs, |xs|, f).Keys)
    ensures var r := LoadAll(Numbered(xs, |xs|, f), order, |order|, load);
            && r.Ok? && |order| == |xs|
            && forall j, k :: 0 <= j < |order| && 0 <= k < |xs| && order[j] == DriverName(k) ==> r.value[j] == xs[k]
  {
    forall j | 0 <= j < |order|
      ensures var v := load(Numbered(xs, |xs|, f)[order[j]]);
              v.Ok? && forall k :: 0 <= k < |xs| && order[j] == DriverName(k) ==> v.value == xs[k]
    {
      NumberedLoadsAt(xs, f, load, order, j);
    }
    NumberedCount(xs, f, order);
  }

  /** The subgroup at position `j` of the enumeration loads as the item its name numbers. */
  lemma NumberedLoadsAt<D, A, E>(xs: seq<D>, f: D --> A, load: A -> Result<D, E>, order: seq<string>, j: nat)
    requires forall i :: 0 <= i < |xs| ==> f.requires(xs[i]) && load(f(xs[i])) == Ok(xs[i])
    requires Enumerates(order, Numbered(xs, |xs|, f).Keys) && j < |order|
    ensures var v := load(Numbered(xs, |xs|, f)[order[j]]);
            v.Ok? && forall k :: 0 <= k < |xs| && order[j] == DriverName(k) ==> v.value == xs[k]
  {
    NumberedKeys(xs, |xs|, f, order[j]);
    var k :| 0 <= k < |xs| && order[j] == DriverName(k);
    NumberedAt(xs, |xs|, f, k);
    forall k' | 0 <= k' < |xs| && order[j] == DriverName(k')
      ensures k' == k
    {
      if k' != k {
        DriverNameInjective(k', k);
      }
    }
  }

  /** The subgroups are `driver_0` to `driver_{n-1}`, so an enumeration of them has `n` names. */
  lemma NumberedCount<D, V>(xs: seq<D>, f: D --> V, order: seq<string>)
    requires forall i :: 0 <= i < |xs| ==> f.requires(xs[i])
    requires Enumerates(order, Numbered(xs, |xs|, f).Keys)
    ensures |order| == |xs|
  {
    NumberedNames(xs, f);
    NamesCount(|xs|);
    DistinctCount(order, set k | 0 <= k < |xs| :: DriverName(k));
  }

  lemma NumberedNames<D, V>(xs: seq<D>, f: D --> V)
    requires forall i :: 0 <= i < |xs| ==> f.requires(xs[i])
    ensures Numbered(xs, |xs|, f).Keys == set k | 0 <= k < |xs| :: DriverName(k)
  {
    var g := Numbered(xs, |xs|, f);
    forall k | 0 <= k < |xs|
      ensures DriverName(k) in g
    {
      NumberedAt(xs, |xs|, f, k);
    }
    forall name | name in g
      ensures exists k :: 0 <= k < |xs| && name == DriverName(k)
    {
      NumberedKeys(xs, |xs|, f, name);
    }
  }

  lemma {:induction false} NamesCount(n: nat)
    ensures |set k | 0 <= k < n :: DriverName(k)| == n
  {
    if n > 0 {
      var s := set k | 0 <= k < n :: DriverName(k);
      var t := set k | 0 <= k < n - 1 :: DriverName(k);
      forall k | 0 <= k < n - 1
        ensures DriverName(k) != DriverName(n - 1)
      {
        DriverNameInjective(k, n - 1);
      }
      assert s == t + {DriverName(n - 1)};
      NamesCount(n - 1);
    }
  }

  /** A list of distinct names covering a set has as many names as the set. */
  lemma {:induction false} DistinctCount(order: seq<string>, names: set<string>)
    requires Enumerates(order, names)
    ensures |order| == |names|
  {
    if order != [] {
      var last := order[|order| - 1];
      var front := order[..|order| - 1];
      assert Enumerates(front, names - {last}) by {
        forall k | k in names - {last}
          ensures k in front
        {
          var j :| 0 <= j < |order| && order[j] == k;
          assert j != |order| - 1;
        }
      }
      DistinctCount(front, names - {last});
    } else {
      assert forall k :: k !in names;
      assert names == {};
    }
  }

  /** The names in the order the subgroups were written enumerate them. */
  lemma NumberedInOrder<D, V>(xs: seq<D>, f: D --> V)
    requires forall i :: 0 <= i < |xs| ==> f.requires(xs[i])
    ensures Enumerates(seq(|xs|, k requires 0 <= k < |xs| => DriverName(k)), Numbered(xs, |xs|, f).Keys)
  {
    var order := seq(|xs|, k requires 0 <= k < |xs| => DriverName(k));
    var g := Numbered(xs, |xs|, f);
    forall j | 0 <= j < |xs|
      ensures order[j] in g
    {
      NumberedAt(xs, |xs|, f, j);
    }
    forall name | name in g
      ensures name in order
    {
      NumberedKeys(xs, |xs|, f, name);
      var k :| 0 <= k < |xs| && name == DriverName(k);
      assert order[k] == name;
    }
    forall i, j | 0 <= i < j < |xs|
      ensures order[i] != order[j]
    {
      DriverNameInjective(i, j);
    }
  }

  /** Every driver the save writes loads back as itself. */
  lemma LoadDriverInvertsDriverAttrs(ds: seq<Driver>)
    requires AllInstances(ds)
    requires forall i :: 0 <= i < |ds| ==> ClassName(ClassOf(ds[i].waveform.w)) in Registry
    ensures forall i :: 0 <= i < |ds| ==> LoadDriver(DriverAttrs(ds[i])) == Ok(ds[i])
  {
    forall i | 0 <= i < |ds|
      ensures LoadDriver(DriverAttrs(ds[i])) == Ok(ds[i])
    {
      LoadDriverRoundTrip(ds[i]);
    }
  }

  /**
   * Saving a run whose drivers all hold registered waveforms and loading
   * it back gives, in iteration order, the driver each subgroup name numbers.
   */
  lemma SaveLoadRoundTrip(groups: map<string, SimGroup>, history: seq<seq<real>>, params: map<string, Engine.ParamValue>,
                          ds: seq<Driver>, id: int, order: seq<string>)
    requires AllInstances(ds)
    requires forall i :: 0 <= i < |ds| ==> ClassName(ClassOf(ds[i].waveform.w)) in Registry
    requires Enumerates(order, IntendedGroups(ds).Keys)
    ensures var r := LoadSimulation(groups[GroupName(id) := IntendedSavedGroup(history, params, ds)], GroupName(id), order);
            && r.Ok? && |r.value| == |order| == |ds|
            && forall j, k :: 0 <= j < |order| && 0 <= k < |ds| && order[j] == DriverName(k) ==> r.value[j] == ds[k]
  {
    LoadDriverInvertsDriverAttrs(ds);
    NumberedRoundTrip(ds, DriverAttrs, LoadDriver, order);
  }

  /** Loading numbered subgroups in the order they were written gives the items back. */
  lemma NumberedInOrderLoads<D, A, E>(xs: seq<D>, f: D --> A, load: A -> Result<D, E>)
    requires forall i :: 0 <= i < |xs| ==> f.requires(xs[i]) && load(f(xs[i])) == Ok(xs[i])
    ensures var order := seq(|xs|, k requires 0 <= k < |xs| => DriverName(k));
            Enumerates(order, Numbered(xs, |xs|, f).Keys)
            && LoadAll(Numbered(xs, |xs|, f), order, |order|, load) == Ok(xs)
  {
    var order := seq(|xs|, k requires 0 <= k < |xs| => DriverName(k));
    NumberedInOrder(xs, f);
    NumberedRoundTrip(xs, f, load, order);
    var r := LoadAll(Numbered(xs, |xs|, f), order, |order|, load);
    forall j | 0 <= j < |xs|
      ensures r.value[j] == xs[j]
    {
      assert order[j] == DriverName(j);
    }
    assert r.value == xs;
  }

  /** Loading the saved run in the order the drivers were written gives the driver list back. */
  lemma SaveLoadInOrder(groups: map<string, SimGroup>, history: seq<seq<real>>, params: map<string, Engine.ParamValue>,
                        ds: seq<Driver>, id: int)
    requires AllInstances(ds)
    requires forall i :: 0 <= i < |ds| ==> ClassName(ClassOf(ds[i].waveform.w)) in Registry
    ensures var order := seq(|ds|, k requires 0 <= k < |ds| => DriverName(k));
            Enumerates(order, IntendedGroups(ds).Keys)
            && LoadSimulation(groups[GroupName(id) := IntendedSavedGroup(history, params, ds)], GroupName(id), order) == Ok(ds)
  {
    LoadDriverInvertsDriverAttrs(ds);
    NumberedInOrderLoads(ds, DriverAttrs, LoadDriver);
  }

  /**
   * As written, loading back the group a save of at least one driver leaves
   * raises KeyError `'location'`, in any order of iteration.
   */
  lemma AsWrittenSaveLoadFails(groups: map<string, SimGroup>, history: seq<seq<real>>, params: map<string, Engine.ParamValue>,
                               ds: seq<Driver>, id: int, order: seq<string>)
    requires AllInstances(ds) && |ds| >= 1
    requires forall i :: 0 <= i < |ds| ==> ClassName(ClassOf(ds[i].waveform.w)) in Registry
    requires Enumerates(order, DriverGroups(ds, |ds|).Keys)
    ensures LoadSimulation(groups[GroupName(id) := SavedGroup(history, params, ds)], GroupName(id), order)
            == Err(MissingAttribute("location"))
  {
    var g := DriverGroups(ds, |ds|);
    NumberedCount(ds, DriverAttrsAsWritten, order);
    NumberedKeys(ds, |ds|, DriverAttrsAsWritten, order[0]);
    var k :| 0 <= k < |ds| && order[0] == DriverName(k);
    NumberedAt(ds, |ds|, DriverAttrsAsWritten, k);
    AsWrittenLoadFails(ds[k]);
    assert LoadAll(g, order, 1, LoadDriver) == Err(MissingAttribute("location"));
    LoadAllStopsAtError(g, order, 1, |order|, LoadDriver);
  }
}
