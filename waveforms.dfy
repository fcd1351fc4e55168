/**
 * Driver waveforms and the name-to-class registry (waveforms.py).
 *
 * The dataclasses become one closed datatype. `np.cos`, `np.exp` and `np.pi`
 * are not defined here: they are supplied as a `Math` value, and the facts
 * about them that a property needs (|cos x| <= 1, exp 0 = 1) are hypotheses
 * of that property's lemma.
 */
module Waveforms {
  import opened Wrappers
  import Arith

  /** The transcendental functions the waveforms call. */
  datatype Math = Math(cos: real -> real, exp: real -> real, pi: real)

  ghost predicate CosBounded(m: Math)
  {
    forall x :: -1.0 <= m.cos(x) <= 1.0
  }

  predicate ExpOfZeroIsOne(m: Math)
  {
    m.exp(0.0) == 1.0
  }

  /** An instance of the base class `Waveform` or of one of its two dataclasses. */
  datatype Waveform =
    | BaseWaveform
    | Cosine(frequency: real, amplitude: real)
    | GaussianPulse(amplitude: real, centerTime: real, width: real)

  /** The class objects themselves, as the registry and the Driver default hold them. */
  datatype WaveformClass = WaveformBaseClass | CosineClass | GaussianPulseClass

  datatype CallError = NotImplemented | ZeroDivision

  datatype ConstructError = UnexpectedKeywords(keys: set<string>) | TooManyPositional

  const DefaultCosine: Waveform := Cosine(3.0, 1.0)
  const DefaultGaussianPulse: Waveform := GaussianPulse(1.0, 0.5, 0.1)

  /**
   * `waveform(t)`: the base class raises NotImplementedError; a pulse whose
   * denominator `2 * width**2` is zero raises ZeroDivisionError.
   */
  function Call(w: Waveform, m: Math, t: real): (r: Result<real, CallError>)
    ensures r == Err(NotImplemented) <==> w.BaseWaveform?
    ensures r == Err(ZeroDivision) <==> w.GaussianPulse? && Denominator(w.width) == 0.0
    ensures r.Ok? <==> Callable(w)
  {
    match w
    case BaseWaveform => Err(NotImplemented)
    case Cosine(f, a) => Ok(CosineValue(m, f, a, t))
    case GaussianPulse(a, c, wd) =>
      if Denominator(wd) == 0.0 then Err(ZeroDivision)
      else Ok(PulseValue(m, a, c, wd, t))
  }

  /** `amplitude * cos(2 * pi * frequency * t)`. */
  function CosineValue(m: Math, frequency: real, amplitude: real, t: real): real
  {
    amplitude * m.cos(2.0 * m.pi * frequency * t)
  }

  /** `2 * width**2`, the divisor of the pulse's exponent. */
  function Denominator(width: real): real
  {
    2.0 * Arith.Square(width)
  }

  /** `-(t - center_time)**2 / (2 * width**2)`, with `u = t - center_time`. */
  function Exponent(u: real, width: real): real
    requires Denominator(width) != 0.0
  {
    -Arith.Square(u) / Denominator(width)
  }

  /** `amplitude * exp(-(t - center_time)**2 / (2 * width**2))`. */
  function PulseValue(m: Math, amplitude: real, centerTime: real, width: real, t: real): real
    requires Denominator(width) != 0.0
  {
    amplitude * m.exp(Exponent(t - centerTime, width))
  }

  /** The instances whose call returns a number. */
  predicate Callable(w: Waveform)
  {
    w.Cosine? || (w.GaussianPulse? && Denominator(w.width) != 0.0)
  }

  /** `__class__.__name__` of an instance. */
  function ClassOf(w: Waveform): WaveformClass
  {
    match w
    case BaseWaveform => WaveformBaseClass
    case Cosine(_, _) => CosineClass
    case GaussianPulse(_, _, _) => GaussianPulseClass
  }

  function ClassName(c: WaveformClass): string
  {
    match c
    case WaveformBaseClass => "Waveform"
    case CosineClass => "Cosine"
    case GaussianPulseClass => "GaussianPulse"
  }

  /** The dataclass fields of a class, by their Python names. */
  function FieldNames(c: WaveformClass): set<string>
  {
    match c
    case WaveformBaseClass => {}
    case CosineClass => {"frequency", "amplitude"}
    case GaussianPulseClass => {"amplitude", "center_time", "width"}
  }

  /** The instance's `__dict__`: one entry per dataclass field. */
  function Fields(w: Waveform): (d: map<string, real>)
    ensures d.Keys == FieldNames(ClassOf(w))
  {
    match w
    case BaseWaveform => map[]
    case Cosine(f, a) => map["frequency" := f, "amplitude" := a]
    case GaussianPulse(a, c, wd) => map["amplitude" := a, "center_time" := c, "width" := wd]
  }

  /** `waveform_registry`: the class for each registered name. */
  const Registry: map<string, WaveformClass> :=
    map["Cosine" := CosineClass, "GaussianPulse" := GaussianPulseClass]

  /** The dataclass defaults of a class, by field name. */
  function DefaultFields(c: WaveformClass): map<string, real>
  {
    match c
    case WaveformBaseClass => map[]
    case CosineClass => map["frequency" := 3.0, "amplitude" := 1.0]
    case GaussianPulseClass => map["amplitude" := 1.0, "center_time" := 0.5, "width" := 0.1]
  }

  /** The first declared field of a dataclass, which a positional argument fills. */
  function FirstField(c: WaveformClass): string
    requires c != WaveformBaseClass
  {
    match c
    case CosineClass => "frequency"
    case GaussianPulseClass => "amplitude"
  }

  function Lookup(m: map<string, real>, key: string, default: real): real
  {
    if key in m then m[key] else default
  }

  /**
   * `cls(**kwargs)`: a keyword that is not a field raises TypeError, a missing
   * field takes its default.
   */
  function Construct(c: WaveformClass, kwargs: map<string, real>): (r: Result<Waveform, ConstructError>)
    ensures r.Err? <==> !(kwargs.Keys <= FieldNames(c))
    ensures r.Ok? ==> ClassOf(r.value) == c
    ensures r.Ok? ==> forall f :: f in kwargs ==> Fields(r.value)[f] == kwargs[f]
    ensures r.Ok? ==> Fields(r.value) == DefaultFields(c) + kwargs
  {
    if !(kwargs.Keys <= FieldNames(c)) then Err(UnexpectedKeywords(kwargs.Keys - FieldNames(c)))
    else
      match c
      case WaveformBaseClass => Ok(BaseWaveform)
      case CosineClass =>
        Ok(Cosine(Lookup(kwargs, "frequency", 3.0), Lookup(kwargs, "amplitude", 1.0)))
      case GaussianPulseClass =>
        Ok(GaussianPulse(Lookup(kwargs, "amplitude", 1.0), Lookup(kwargs, "center_time", 0.5),
                         Lookup(kwargs, "width", 0.1)))
  }

  /** `cls(x)`: one positional argument fills the first dataclass field; the base class takes none. */
  function ConstructPositional(c: WaveformClass, x: real): (r: Result<Waveform, ConstructError>)
    ensures r.Err? <==> c == WaveformBaseClass
    ensures r.Ok? ==> ClassOf(r.value) == c && Fields(r.value) == DefaultFields(c)[FirstField(c) := x]
  {
    match c
    case WaveformBaseClass => Err(TooManyPositional)
    case CosineClass => Ok(Cosine(x, 1.0))
    case GaussianPulseClass => Ok(GaussianPulse(x, 0.5, 0.1))
  }

  /** The registry holds exactly the two dataclasses, each under its own class name. */
  lemma RegistryNamesItsClasses()
    ensures Registry.Keys == {"Cosine", "GaussianPulse"}
    ensures forall name :: name in Registry ==> ClassName(Registry[name]) == name
    ensures forall c :: c in Registry.Values <==> c != WaveformBaseClass
  {
    assert Registry["Cosine"] == CosineClass;
    assert Registry["GaussianPulse"] == GaussianPulseClass;
  }

  /** A class called with no arguments gives the dataclass defaults. */
  lemma ConstructDefaults()
    ensures Construct(CosineClass, map[]) == Ok(DefaultCosine)
    ensures Construct(GaussianPulseClass, map[]) == Ok(DefaultGaussianPulse)
    ensures Fields(DefaultCosine) == map["frequency" := 3.0, "amplitude" := 1.0]
    ensures Fields(DefaultGaussianPulse) == map["amplitude" := 1.0, "center_time" := 0.5, "width" := 0.1]
  {
  }

  /** Rebuilding an instance from its class and its `__dict__` gives the instance back. */
  lemma ConstructFromFields(w: Waveform)
    ensures Construct(ClassOf(w), Fields(w)) == Ok(w)
  {
  }

  /** A cosine never exceeds its amplitude in magnitude. */
  lemma CosineBounded(m: Math, f: real, a: real, t: real)
    requires CosBounded(m)
    ensures Call(Cosine(f, a), m, t).Ok?
    ensures var v := Call(Cosine(f, a), m, t).value;
            -(if a < 0.0 then -a else a) <= v <= (if a < 0.0 then -a else a)
  {
    var c := m.cos(2.0 * m.pi * f * t);
    assert -1.0 <= c <= 1.0;
    if a >= 0.0 {
      assert a * c <= a * 1.0 && a * (-1.0) <= a * c;
    } else {
      assert a * c <= a * (-1.0) && a * 1.0 <= a * c;
    }
  }

  /** A Gaussian pulse takes the value of its amplitude at its centre time. */
  lemma GaussianPeak(m: Math, a: real, c: real, wd: real)
    requires ExpOfZeroIsOne(m) && Denominator(wd) != 0.0
    ensures Call(GaussianPulse(a, c, wd), m, c) == Ok(a)
  {
    assert Arith.Square(c - c) == 0.0;
  }

  /** The exponent depends on the distance from the centre only through its square. */
  lemma ExponentEven(u: real, v: real, width: real)
    requires Denominator(width) != 0.0 && v == -u
    ensures Exponent(v, width) == Exponent(u, width)
  {
    Arith.SquareOfNegation(u);
  }

  /** A Gaussian pulse is symmetric about its centre time. */
  lemma GaussianSymmetric(m: Math, a: real, c: real, wd: real, d: real)
    ensures Call(GaussianPulse(a, c, wd), m, c + d) == Call(GaussianPulse(a, c, wd), m, c - d)
  {
    if Denominator(wd) != 0.0 {
      ExponentEven(c + d - c, c - d - c, wd);
      assert PulseValue(m, a, c, wd, c + d) == PulseValue(m, a, c, wd, c - d);
    }
  }
}
