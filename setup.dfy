/**
 * Drivers, sensors and the random cosine generator (simulate/setup.py).
 *
 * A `Driver`'s waveform slot holds either a waveform instance or, by
 * default, the class `Cosine` itself. Calling the slot with a time then
 * either evaluates the instance or constructs a new instance from the time.
 * The random draws of `get_random_cosine` and the square chosen by
 * `LocationGenerator` are inputs.
 */
module Setup {
  import opened Wrappers
  import opened Waveforms

  /** What `Driver.waveform` holds: an instance, or a class object. */
  datatype WaveformSlot = Instance(w: Waveform) | ClassRef(c: WaveformClass)

  datatype Driver = Driver(location: seq<int>, waveform: WaveformSlot)

  /** `Sensor`: a location and the pressure recorded there. */
  datatype Sensor = Sensor(location: seq<int>, timeseries: seq<real>)

  /** `Driver(location)` with the default waveform, the class `Cosine`. */
  function DefaultDriver(location: seq<int>): (d: Driver)
    ensures d.location == location && d.waveform == ClassRef(CosineClass)
  {
    Driver(location, ClassRef(CosineClass))
  }

  /** What `waveform(time)` gives back: a number from an instance, a new instance from a class. */
  datatype Outcome = Number(x: real) | Made(w: Waveform)

  datatype ValueError = CallFailed(callError: CallError) | ConstructFailed(constructError: ConstructError)

  /** `Driver.get_value(time)`: `self.waveform(time)`. */
  function GetValue(d: Driver, m: Math, time: real): (r: Result<Outcome, ValueError>)
    ensures d.waveform.Instance? ==> (r.Ok? <==> Callable(d.waveform.w))
    ensures d.waveform.Instance? && r.Ok? ==> r.value.Number? && Call(d.waveform.w, m, time) == Ok(r.value.x)
    ensures d.waveform.Instance? && r.Err? ==> r.error.CallFailed? && Call(d.waveform.w, m, time) == Err(r.error.callError)
    ensures d.waveform.ClassRef? ==> (r.Ok? <==> d.waveform.c != WaveformBaseClass)
    ensures d.waveform.ClassRef? && r.Ok? ==> r.value.Made? && ClassOf(r.value.w) == d.waveform.c
  {
    match d.waveform
    case Instance(w) =>
      (match Call(w, m, time)
       case Ok(x) => Ok(Number(x))
       case Err(e) => Err(CallFailed(e)))
    case ClassRef(c) =>
      (match ConstructPositional(c, time)
       case Ok(w) => Ok(Made(w))
       case Err(e) => Err(ConstructFailed(e)))
  }

  /** A driver left with its default waveform yields a cosine whose frequency is the time, not a number. */
  lemma DefaultDriverYieldsInstance(location: seq<int>, m: Math, time: real)
    ensures GetValue(DefaultDriver(location), m, time) == Ok(Made(Cosine(time, 1.0)))
    ensures !GetValue(DefaultDriver(location), m, time).value.Number?
  {
  }

  /** A driver holding a cosine instance yields that cosine's value at the time. */
  lemma CosineDriverValue(location: seq<int>, m: Math, f: real, a: real, time: real)
    ensures GetValue(Driver(location, Instance(Cosine(f, a))), m, time)
            == Ok(Number(CosineValue(m, f, a, time)))
  {
  }

  /** `GenerateDriver(gridsize)`. */
  datatype DriverGenerator = DriverGenerator(gridsize: seq<nat>, dims: nat)

  function NewDriverGenerator(gridsize: seq<nat>): (g: DriverGenerator)
    ensures g.gridsize == gridsize && g.dims == |gridsize|
  {
    DriverGenerator(gridsize, |gridsize|)
  }

  /** Python truthiness of the optional arguments: `None`, `()` and `0` are false. */
  predicate LocationGiven(location: Option<seq<int>>)
  {
    location.Some? && location.value != []
  }

  predicate NumberGiven(x: Option<real>)
  {
    x.Some? && x.value != 0.0
  }

  /** The value of `get_random_cosine`: the driver, and with `verbose` also its parameters. */
  datatype RandomCosine =
    | Plain(driver: Driver)
    | Verbose(driver: Driver, location: seq<int>, frequency: real, amplitude: real)

  /**
   * `get_random_cosine(verbose, location, frequency, amplitude)`. A falsy
   * argument is replaced by a draw: `drawnLocation` stands for
   * `LocationGenerator(...).get_new_location()`, `drawnFrequency` for
   * `randint(1, 10)`, `drawnAmplitude` for `uniform(0.5, 0.9)`.
   */
  function GetRandomCosine(g: DriverGenerator, verbose: bool, location: Option<seq<int>>,
                           frequency: Option<real>, amplitude: Option<real>,
                           drawnLocation: seq<int>, drawnFrequency: int, drawnAmplitude: real): (r: RandomCosine)
    requires 1 <= drawnFrequency < 10
    requires 0.5 <= drawnAmplitude < 0.9
    ensures r.Verbose? <==> verbose
    ensures r.driver.waveform.Instance? && r.driver.waveform.w.Cosine?
    ensures LocationGiven(location) ==> r.driver.location == location.value
    ensures !LocationGiven(location) ==> r.driver.location == drawnLocation
    ensures NumberGiven(frequency) ==> r.driver.waveform.w.frequency == frequency.value
    ensures !NumberGiven(frequency) ==>
              var f := r.driver.waveform.w.frequency;
              1.0 <= f < 10.0 && f == f.Floor as real
    ensures NumberGiven(amplitude) ==> r.driver.waveform.w.amplitude == amplitude.value
    ensures !NumberGiven(amplitude) ==> 0.5 <= r.driver.waveform.w.amplitude < 0.9
    ensures r.Verbose? ==> r.location == r.driver.location
                           && r.frequency == r.driver.waveform.w.frequency
                           && r.amplitude == r.driver.waveform.w.amplitude
  {
    var loc := if LocationGiven(location) then location.value else drawnLocation;
    var f := if NumberGiven(frequency) then frequency.value else drawnFrequency as real;
    var a := if NumberGiven(amplitude) then amplitude.value else drawnAmplitude;
    var driver := Driver(loc, Instance(Cosine(f, a)));
    if verbose then Verbose(driver, loc, f, a) else Plain(driver)
  }

  /** The driver `get_random_cosine` returns is always evaluable, and bounded when its amplitude was drawn. */
  lemma RandomCosineEvaluable(g: DriverGenerator, verbose: bool, location: Option<seq<int>>,
                              frequency: Option<real>, amplitude: Option<real>,
                              drawnLocation: seq<int>, drawnFrequency: int, drawnAmplitude: real,
                              m: Math, time: real)
    requires 1 <= drawnFrequency < 10
    requires 0.5 <= drawnAmplitude < 0.9
    requires CosBounded(m)
    ensures var d := GetRandomCosine(g, verbose, location, frequency, amplitude,
                                     drawnLocation, drawnFrequency, drawnAmplitude).driver;
            var v := GetValue(d, m, time);
            v.Ok? && v.value.Number? && (!NumberGiven(amplitude) ==> -0.9 < v.value.x < 0.9)
  {
    var d := GetRandomCosine(g, verbose, location, frequency, amplitude,
                             drawnLocation, drawnFrequency, drawnAmplitude).driver;
    CosineBounded(m, d.waveform.w.frequency, d.waveform.w.amplitude, time);
  }
}
