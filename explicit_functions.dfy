/**
 * The explicit-function playground. Raw slider values are resolved into the
 * domain of each curve family; the sampled range of the selected curve is
 * memoised behind a dependency key that ignores the sliders of the other
 * families; and two playback engines are kept in step with the resolved
 * bounds and the freshest ranges.
 */
module ExplicitFunctions {
  import opened Wrappers

  /** Cap on the number of samples and on playback indices (MAX_SAFE_FRAMES). */
  const MaxSafeFrames: int := 1000

  /** Euler's number: the shortest decimal that rounds to the double `Math.exp(1)`. */
  const E: real := 2.718281828459045

  function Abs(x: real): real
  {
    if x < 0.0 then -x else x
  }

  // ------------------------------------------------------------------------
  // Resolvers: total maps from a raw value to a domain-valid number.
  // ------------------------------------------------------------------------

  /** A raw value as a number, or the default `df` when it does not parse. */
  function ToNum(v: Option<real>, df: real := 0.0): (r: real)
    ensures v.None? ==> r == df
    ensures v.Some? ==> r == v.value
  {
    match v
    case None => df
    case Some(x) => x
  }

  /** The magnitude of a raw value. */
  function ToPositive(v: Option<real>, df: real := 0.0): (r: real)
    ensures 0.0 <= r
    ensures r == ToNum(v, df) || r == -ToNum(v, df)
  {
    Abs(ToNum(v, df))
  }

  /** The whole part of a raw value's magnitude. */
  function ToNatural(v: Option<real>, df: real := 0.0): (r: int)
    ensures 0 <= r
    ensures r as real <= ToPositive(v, df) < r as real + 1.0
  {
    ToPositive(v, df).Floor
  }

  /** A sample count or playback index: the whole magnitude, capped at `max`. */
  function ToSafeNatural(v: Option<real>, max: int := MaxSafeFrames): (r: int)
    ensures r <= max && r <= ToNatural(v)
    ensures r == max || r == ToNatural(v)
    ensures 0 <= max ==> 0 <= r
  {
    var k := ToNatural(v);
    if k > max then max else k
  }

  /** A natural number within the cap resolves to itself. */
  lemma ToSafeNaturalOfNatural(k: int, max: int)
    requires 0 <= k <= max
    ensures ToSafeNatural(Some(k as real), max) == k
  {
  }

  /** Resolving an already resolved count changes nothing. */
  lemma ToSafeNaturalIdempotent(v: Option<real>, max: int)
    ensures ToSafeNatural(Some(ToSafeNatural(v, max) as real), max) == ToSafeNatural(v, max)
  {
  }

  /** The base of the exponential family: never 0 or 1, which make that family degenerate. */
  function ResolveBase(v: Option<real>): (r: real)
    ensures 0.0 < r && r != 1.0
    ensures ToPositive(v) != 0.0 && ToPositive(v) != 1.0 ==> r == ToPositive(v)
    ensures ToPositive(v) == 0.0 || ToPositive(v) == 1.0 ==> r == E
  {
    var b := ToPositive(v);
    if b == 1.0 || b == 0.0 then E else b
  }

  /** The exponent of the monomial family: at least 1. */
  function ResolveExponent(v: Option<real>): (r: real)
    ensures 1.0 <= r
    ensures 1.0 <= ToPositive(v) ==> r == ToPositive(v)
    ensures ToPositive(v) < 1.0 ==> r == 1.0
  {
    var e := ToPositive(v);
    if e < 1.0 then 1.0 else e
  }

  /** A Bezier control-point abscissa: within [0, 1]. */
  function ResolvedX(v: Option<real>): (r: real)
    ensures 0.0 <= r <= 1.0
    ensures ToPositive(v) <= 1.0 ==> r == ToPositive(v)
    ensures 1.0 < ToPositive(v) ==> r == 1.0
  {
    var x := ToPositive(v);
    if x > 1.0 then 1.0 else x
  }

  /** A Bezier control-point ordinate: unrestricted. */
  function ResolvedY(v: Option<real>): (r: real)
    ensures v.Some? ==> r == v.value
    ensures v.None? ==> r == 0.0
  {
    ToNum(v)
  }

  // ------------------------------------------------------------------------
  // Curve families and their parameters.
  // ------------------------------------------------------------------------

  /** The six curve families a user can select. */
  datatype Family = Linear | Monomial | Exponential | QuadraticBezier | CubicBezier | Harmonic

  /** The adjustable parameters of the curve families. */
  datatype Param =
    | X1 | Y1 | X2 | Y2 | Base | Exponent
    | Damping | Stiffness | Mass | InitPosition | InitSpeed | HalfPeriods

  /** One value per parameter: raw inputs, resolved numbers or dependency slots. */
  datatype Params<T> = Params(x1: T, y1: T, x2: T, y2: T, base: T, exponent: T,
                              damping: T, stiffness: T, mass: T,
                              initPosition: T, initSpeed: T, halfPeriods: T)
  {
    function Get(q: Param): T
    {
      match q
      case X1 => x1
      case Y1 => y1
      case X2 => x2
      case Y2 => y2
      case Base => base
      case Exponent => exponent
      case Damping => damping
      case Stiffness => stiffness
      case Mass => mass
      case InitPosition => initPosition
      case InitSpeed => initSpeed
      case HalfPeriods => halfPeriods
    }

    /** The same values with the one for `q` replaced by `v`. */
    function With(q: Param, v: T): (r: Params<T>)
      ensures r.Get(q) == v
      ensures forall q' :: q' != q ==> r.Get(q') == Get(q')
    {
      match q
      case X1 => this.(x1 := v)
      case Y1 => this.(y1 := v)
      case X2 => this.(x2 := v)
      case Y2 => this.(y2 := v)
      case Base => this.(base := v)
      case Exponent => this.(exponent := v)
      case Damping => this.(damping := v)
      case Stiffness => this.(stiffness := v)
      case Mass => this.(mass := v)
      case InitPosition => this.(initPosition := v)
      case InitSpeed => this.(initSpeed := v)
      case HalfPeriods => this.(halfPeriods := v)
    }
  }

  /** True when the two parameter sets agree on every parameter in `qs`. */
  ghost predicate SameOn<T>(qs: set<Param>, p1: Params<T>, p2: Params<T>)
  {
    forall q :: q in qs ==> p1.Get(q) == p2.Get(q)
  }

  /** The parameters the page shows an input for while family `f` is selected. */
  function Inputs(f: Family): (r: set<Param>)
    ensures X1 in r <==> f == QuadraticBezier || f == CubicBezier
    ensures Y1 in r <==> f == QuadraticBezier || f == CubicBezier
    ensures X2 in r <==> f == CubicBezier
    ensures Y2 in r <==> f == CubicBezier
    ensures Base in r <==> f == Exponential
    ensures Exponent in r <==> f == Monomial
    ensures Damping in r <==> f == Harmonic
    ensures Stiffness in r <==> f == Harmonic
    ensures Mass in r <==> f == Harmonic
    ensures InitPosition in r <==> f == Harmonic
    ensures InitSpeed in r <==> f == Harmonic
    ensures HalfPeriods in r <==> f == Harmonic
  {
    match f
    case Linear => {}
    case Monomial => {Exponent}
    case Exponential => {Base}
    case QuadraticBezier => {X1, Y1}
    case CubicBezier => {X1, Y1, X2, Y2}
    case Harmonic => {Damping, Stiffness, Mass, InitPosition, InitSpeed, HalfPeriods}
  }

  /** The resolver the component applies to each parameter's raw value. */
  function ResolveParam(q: Param, v: Option<real>): real
  {
    match q
    case X1 | X2 => ResolvedX(v)
    case Y1 | Y2 => ResolvedY(v)
    case Base => ResolveBase(v)
    case Exponent => ResolveExponent(v)
    case _ => ToNum(v)
  }

  /** The domain each parameter's resolver guarantees. */
  predicate InDomain(q: Param, x: real)
  {
    match q
    case X1 | X2 => 0.0 <= x <= 1.0
    case Base => 0.0 < x && x != 1.0
    case Exponent => 1.0 <= x
    case _ => true
  }

  /** Every raw value resolves into its parameter's domain. */
  lemma ResolveParamInDomain(q: Param, v: Option<real>)
    ensures InDomain(q, ResolveParam(q, v))
  {
  }

  /** A value already in the domain resolves to itself, so resolving twice is resolving once. */
  lemma ResolveParamFixesDomain(q: Param, x: real)
    requires InDomain(q, x)
    ensures ResolveParam(q, Some(x)) == x
    ensures ResolveParam(q, Some(ResolveParam(q, Some(x)))) == ResolveParam(q, Some(x))
  {
  }

  /** All parameters resolved, as the component does on every render. */
  function Resolve(raw: Params<Option<real>>): (p: Params<real>)
    ensures forall q :: p.Get(q) == ResolveParam(q, raw.Get(q))
  {
    Params(ResolvedX(raw.x1), ResolvedY(raw.y1), ResolvedX(raw.x2), ResolvedY(raw.y2),
           ResolveBase(raw.base), ResolveExponent(raw.exponent),
           ToNum(raw.damping), ToNum(raw.stiffness), ToNum(raw.mass),
           ToNum(raw.initPosition), ToNum(raw.initSpeed), ToNum(raw.halfPeriods))
  }

  /** Editing one raw value changes exactly that resolved value. */
  lemma ResolveWith(raw: Params<Option<real>>, q: Param, v: Option<real>)
    ensures Resolve(raw.With(q, v)) == Resolve(raw).With(q, ResolveParam(q, v))
  {
    var lhs, rhs := Resolve(raw.With(q, v)), Resolve(raw).With(q, ResolveParam(q, v));
    forall q' ensures lhs.Get(q') == rhs.Get(q') {
      if q' != q {
        assert raw.With(q, v).Get(q') == raw.Get(q');
      }
    }
    assert lhs.Get(X1) == rhs.Get(X1) && lhs.Get(Y1) == rhs.Get(Y1);
    assert lhs.Get(X2) == rhs.Get(X2) && lhs.Get(Y2) == rhs.Get(Y2);
    assert lhs.Get(Base) == rhs.Get(Base) && lhs.Get(Exponent) == rhs.Get(Exponent);
    assert lhs.Get(Damping) == rhs.Get(Damping) && lhs.Get(Stiffness) == rhs.Get(Stiffness);
    assert lhs.Get(Mass) == rhs.Get(Mass) && lhs.Get(InitPosition) == rhs.Get(InitPosition);
    assert lhs.Get(InitSpeed) == rhs.Get(InitSpeed) && lhs.Get(HalfPeriods) == rhs.Get(HalfPeriods);
  }

  /** The options object handed to the harmonic-oscillator family. */
  datatype Oscillator = Oscillator(damping: real, stiffness: real, mass: real,
                                   initPosition: real, initSpeed: real, halfPeriods: real)

  /** A curve of one family together with the resolved parameters it is drawn with. */
  datatype Curve =
    | LinearCurve
    | MonomialCurve(exponent: real)
    | ExponentialCurve(base: real)
    | QuadraticBezierCurve(x1: real, y1: real)
    | CubicBezierCurve(x1: real, y1: real, x2: real, y2: real)
    | HarmonicCurve(options: Oscillator)
  {
    function Kind(): Family
    {
      match this
      case LinearCurve => Linear
      case MonomialCurve(_) => Monomial
      case ExponentialCurve(_) => Exponential
      case QuadraticBezierCurve(_, _) => QuadraticBezier
      case CubicBezierCurve(_, _, _, _) => CubicBezier
      case HarmonicCurve(_) => Harmonic
    }
  }

  /** The curve of the selected family, instantiated with its resolved parameters. */
  function ResolveFunction(f: Family, p: Params<real>): (c: Curve)
    ensures c.Kind() == f
  {
    match f
    case Linear => LinearCurve
    case Monomial => MonomialCurve(p.exponent)
    case Exponential => ExponentialCurve(p.base)
    case QuadraticBezier => QuadraticBezierCurve(p.x1, p.y1)
    case CubicBezier => CubicBezierCurve(p.x1, p.y1, p.x2, p.y2)
    case Harmonic => HarmonicCurve(Oscillator(p.damping, p.stiffness, p.mass,
                                              p.initPosition, p.initSpeed, p.halfPeriods))
  }

  /** Two curves coincide exactly when the family and every parameter shown for it agree. */
  lemma ResolveFunctionEqualIff(f1: Family, p1: Params<real>, f2: Family, p2: Params<real>)
    ensures ResolveFunction(f1, p1) == ResolveFunction(f2, p2) <==> f1 == f2 && SameOn(Inputs(f1), p1, p2)
  {
    if f1 == f2 && SameOn(Inputs(f1), p1, p2) {
      match f1
      case Linear =>
      case Monomial =>
        assert p1.Get(Exponent) == p2.Get(Exponent);
      case Exponential =>
        assert p1.Get(Base) == p2.Get(Base);
      case QuadraticBezier =>
        assert p1.Get(X1) == p2.Get(X1) && p1.Get(Y1) == p2.Get(Y1);
      case CubicBezier =>
        assert p1.Get(X1) == p2.Get(X1) && p1.Get(Y1) == p2.Get(Y1);
        assert p1.Get(X2) == p2.Get(X2) && p1.Get(Y2) == p2.Get(Y2);
      case Harmonic =>
        assert p1.Get(Damping) == p2.Get(Damping) && p1.Get(Stiffness) == p2.Get(Stiffness);
        assert p1.Get(Mass) == p2.Get(Mass) && p1.Get(InitPosition) == p2.Get(InitPosition);
        assert p1.Get(InitSpeed) == p2.Get(InitSpeed) && p1.Get(HalfPeriods) == p2.Get(HalfPeriods);
    }
    if ResolveFunction(f1, p1) == ResolveFunction(f2, p2) {
      assert f1 == ResolveFunction(f1, p1).Kind() == f2;
    }
  }

  // ------------------------------------------------------------------------
  // The dependency key of the memoised range Y.
  // ------------------------------------------------------------------------

  /** A slot of the dependency array: the sentinel `true`, or a number. */
  datatype Dep = True | Num(x: real)

  /** The value of `irrelevant || x` for a boolean and a number. */
  function Or(irrelevant: bool, x: real): (r: Dep)
    ensures r.True? <==> irrelevant
    ensures !irrelevant ==> r == Num(x)
  {
    if irrelevant then True else Num(x)
  }

  /** The dependency array of Y: n, the family, and one slot per parameter. */
  datatype YKey = YKey(n: int, f: Family, slots: Params<Dep>)

  /** The dependency array as the component builds it: a parameter of an inactive family becomes `true`. */
  function YDeps(n: int, f: Family, p: Params<real>): (k: YKey)
    ensures k.n == n && k.f == f
    ensures k.slots.x1 == Or(X1 !in Inputs(f), p.x1) && k.slots.y1 == Or(Y1 !in Inputs(f), p.y1)
    ensures k.slots.x2 == Or(X2 !in Inputs(f), p.x2) && k.slots.y2 == Or(Y2 !in Inputs(f), p.y2)
    ensures k.slots.base == Or(Base !in Inputs(f), p.base)
    ensures k.slots.exponent == Or(Exponent !in Inputs(f), p.exponent)
    ensures k.slots.damping == Or(Damping !in Inputs(f), p.damping)
    ensures k.slots.stiffness == Or(Stiffness !in Inputs(f), p.stiffness)
    ensures k.slots.mass == Or(Mass !in Inputs(f), p.mass)
    ensures k.slots.initPosition == Or(InitPosition !in Inputs(f), p.initPosition)
    ensures k.slots.initSpeed == Or(InitSpeed !in Inputs(f), p.initSpeed)
    ensures k.slots.halfPeriods == Or(HalfPeriods !in Inputs(f), p.halfPeriods)
  {
    var notBezier := !(f == CubicBezier || f == QuadraticBezier);
    YKey(n, f, Params(
      Or(notBezier, p.x1),
      Or(notBezier, p.y1),
      Or(f != CubicBezier, p.x2),
      Or(f != CubicBezier, p.y2),
      Or(f != Exponential, p.base),
      Or(f != Monomial, p.exponent),
      Or(f != Harmonic, p.damping),
      Or(f != Harmonic, p.stiffness),
      Or(f != Harmonic, p.mass),
      Or(f != Harmonic, p.initPosition),
      Or(f != Harmonic, p.initSpeed),
      Or(f != Harmonic, p.halfPeriods)))
  }

  /** The number in a slot (0 for the sentinel). */
  function NumOf(d: Dep): real
  {
    if d.Num? then d.x else 0.0
  }

  /** The curve a dependency key stands for. */
  function KeyCurve(k: YKey): Curve
  {
    var s := k.slots;
    ResolveFunction(k.f, Params(NumOf(s.x1), NumOf(s.y1), NumOf(s.x2), NumOf(s.y2),
                                NumOf(s.base), NumOf(s.exponent),
                                NumOf(s.damping), NumOf(s.stiffness), NumOf(s.mass),
                                NumOf(s.initPosition), NumOf(s.initSpeed), NumOf(s.halfPeriods)))
  }

  /** The key of (n, f, p) stands for the curve `ResolveFunction(f, p)`. */
  lemma KeyCurveOfYDeps(n: int, f: Family, p: Params<real>)
    ensures KeyCurve(YDeps(n, f, p)) == ResolveFunction(f, p)
  {
  }

  /** A slot `irrelevant || x` equals another with the same guard exactly when the guard holds or the numbers agree. */
  lemma OrEqual(b: bool, x1: real, x2: real)
    ensures Or(b, x1) == Or(b, x2) <==> b || x1 == x2
  {
  }

  /** Parameter sets are equal exactly when they agree on every parameter. */
  lemma ParamsEqual<T>(a: Params<T>, b: Params<T>)
    ensures a == b <==> forall q :: a.Get(q) == b.Get(q)
  {
    if forall q :: a.Get(q) == b.Get(q) {
      assert a.Get(X1) == b.Get(X1) && a.Get(Y1) == b.Get(Y1);
      assert a.Get(X2) == b.Get(X2) && a.Get(Y2) == b.Get(Y2);
      assert a.Get(Base) == b.Get(Base) && a.Get(Exponent) == b.Get(Exponent);
      assert a.Get(Damping) == b.Get(Damping) && a.Get(Stiffness) == b.Get(Stiffness);
      assert a.Get(Mass) == b.Get(Mass) && a.Get(InitPosition) == b.Get(InitPosition);
      assert a.Get(InitSpeed) == b.Get(InitSpeed) && a.Get(HalfPeriods) == b.Get(HalfPeriods);
    }
  }

  /** Each slot of the key is the sentinel unless the page shows that parameter for the family. */
  lemma YDepsSlot(n: int, f: Family, p: Params<real>, q: Param)
    ensures YDeps(n, f, p).slots.Get(q) == Or(q !in Inputs(f), p.Get(q))
  {
  }

  /**
   * Two dependency keys are equal exactly when n, the family, and every
   * parameter shown for that family are equal: parameters of the other
   * families never take part.
   */
  lemma YDepsEqualIff(n1: int, f1: Family, p1: Params<real>, n2: int, f2: Family, p2: Params<real>)
    ensures YDeps(n1, f1, p1) == YDeps(n2, f2, p2) <==>
            n1 == n2 && f1 == f2 && SameOn(Inputs(f1), p1, p2)
  {
    var k1, k2 := YDeps(n1, f1, p1), YDeps(n2, f2, p2);
    if f1 == f2 {
      ParamsEqual(k1.slots, k2.slots);
      forall q ensures k1.slots.Get(q) == k2.slots.Get(q) <==> (q in Inputs(f1) ==> p1.Get(q) == p2.Get(q)) {
        YDepsSlot(n1, f1, p1, q);
        YDepsSlot(n2, f2, p2, q);
        OrEqual(q !in Inputs(f1), p1.Get(q), p2.Get(q));
      }
    }
  }

  /**
   * The memoisation is exact: the key changes if and only if n or the curve to
   * be sampled changes, so Y is never stale and never recomputed needlessly.
   */
  lemma MemoKeyIdentifiesCurve(n1: int, f1: Family, p1: Params<real>, n2: int, f2: Family, p2: Params<real>)
    ensures YDeps(n1, f1, p1) == YDeps(n2, f2, p2) <==>
            n1 == n2 && ResolveFunction(f1, p1) == ResolveFunction(f2, p2)
  {
    YDepsEqualIff(n1, f1, p1, n2, f2, p2);
    ResolveFunctionEqualIff(f1, p1, f2, p2);
  }

  /** Editing a parameter that the selected family does not use leaves the key unchanged. */
  lemma IrrelevantEditKeepsKey(n: int, f: Family, p: Params<real>, q: Param, x: real)
    requires q !in Inputs(f)
    ensures YDeps(n, f, p.With(q, x)) == YDeps(n, f, p)
  {
    YDepsEqualIff(n, f, p.With(q, x), n, f, p);
  }

  /** Editing a parameter that the selected family uses changes the key exactly when the value changes. */
  lemma RelevantEditChangesKey(n: int, f: Family, p: Params<real>, q: Param, x: real)
    requires q in Inputs(f)
    ensures YDeps(n, f, p.With(q, x)) == YDeps(n, f, p) <==> x == p.Get(q)
  {
    YDepsEqualIff(n, f, p.With(q, x), n, f, p);
    if x == p.Get(q) {
      assert SameOn(Inputs(f), p.With(q, x), p);
    }
  }

  /**
   * Typing a raw value into a parameter's input: the key of Y stays when the
   * family does not use that parameter, and otherwise changes exactly when
   * the resolved value changes.
   */
  lemma RawEditKey(n: int, f: Family, raw: Params<Option<real>>, q: Param, v: Option<real>)
    ensures q !in Inputs(f) ==> YDeps(n, f, Resolve(raw.With(q, v))) == YDeps(n, f, Resolve(raw))
    ensures q in Inputs(f) ==>
              (YDeps(n, f, Resolve(raw.With(q, v))) == YDeps(n, f, Resolve(raw)) <==>
               ResolveParam(q, v) == Resolve(raw).Get(q))
  {
    ResolveWith(raw, q, v);
    var p := Resolve(raw);
    if q in Inputs(f) {
      RelevantEditChangesKey(n, f, p, q, ResolveParam(q, v));
    } else {
      IrrelevantEditKeepsKey(n, f, p, q, ResolveParam(q, v));
    }
  }

  // ------------------------------------------------------------------------
  // The component: raw state, memoised ranges and the playback engines.
  // ------------------------------------------------------------------------

  /** The two playback engines: the counter and the value of the curve. */
  datatype Motion = MotionX | MotionY

  /** A partial configuration pushed into a playback engine. */
  datatype Update = FromUpdate(from: int) | ToUpdate(to: int) | RangeUpdate(range: seq<real>)

  /** One call of `setMotionX` or `setMotionY`. */
  datatype Call = Call(target: Motion, update: Update)

  /** The bounds and range a playback engine currently plays. */
  datatype Engine = Engine(from: int, to: int, range: seq<real>)

  /** The same update pushed into both engines, counter first. */
  function Both(u: Update): seq<Call>
  {
    [Call(MotionX, u), Call(MotionY, u)]
  }

  /** Both ranges pushed, counter range first. */
  function Ranges(x: seq<real>, y: seq<real>): seq<Call>
  {
    [Call(MotionX, RangeUpdate(x)), Call(MotionY, RangeUpdate(y))]
  }

  /** The calls an effect makes: all of them when its dependency changed, none otherwise. */
  function Pushed(changed: bool, pushes: seq<Call>): seq<Call>
  {
    if changed then pushes else []
  }

  class Component {
    /** The range sampler of the playback library: `n + 1` samples of a curve. */
    const sample: (int, Curve) -> seq<real>

    // Raw inputs, as the user typed them.
    var rawN: Option<real>
    var rawFrom: Option<real>
    var rawTo: Option<real>
    var f: Family
    var raw: Params<Option<real>>

    // The memoised ranges and the dependencies they were computed from;
    // yGen stands for the identity of Y and grows on every recomputation.
    var Y: seq<real>
    var yDeps: Option<YKey>
    var yGen: nat
    var X: seq<real>
    var xDeps: Option<int>

    // The dependencies each effect saw when it last ran.
    var fromDeps: Option<int>
    var toDeps: Option<int>
    var rangeDeps: Option<nat>

    // The playback engines and every call made into them.
    var motionX: Engine
    var motionY: Engine
    var calls: seq<Call>

    function N(): (r: int)
      reads this`rawN
      ensures 0 <= r <= MaxSafeFrames
    {
      ToSafeNatural(rawN)
    }

    function From(): (r: int)
      reads this`rawFrom
      ensures 0 <= r <= MaxSafeFrames
    {
      ToSafeNatural(rawFrom)
    }

    function To(): (r: int)
      reads this`rawTo
      ensures 0 <= r <= MaxSafeFrames
    {
      ToSafeNatural(rawTo)
    }

    function Resolved(): Params<real>
      reads this`raw
    {
      Resolve(raw)
    }

    function CurrentCurve(): Curve
      reads this`f, this`raw
    {
      ResolveFunction(f, Resolve(raw))
    }

    function CurrentYDeps(): YKey
      reads this`rawN, this`f, this`raw
    {
      YDeps(N(), f, Resolve(raw))
    }

    /** Each cached range is the sample of what its key stands for, and X's key is the n of Y's key. */
    ghost predicate MemosValid()
      reads this`yDeps, this`xDeps, this`Y, this`X
    {
      (yDeps.Some? <==> xDeps.Some?) &&
      (yDeps.Some? ==>
         xDeps == Some(yDeps.value.n) &&
         Y == sample(yDeps.value.n, KeyCurve(yDeps.value)) &&
         X == sample(yDeps.value.n, LinearCurve))
    }

    /** Each engine holds what the effects last pushed, and the ranges are current unless Y is new. */
    ghost predicate EnginesValid()
      reads this`fromDeps, this`toDeps, this`rangeDeps, this`yGen, this`motionX, this`motionY, this`X, this`Y
    {
      (rangeDeps == Some(yGen) ==> motionX.range == X && motionY.range == Y) &&
      (fromDeps.Some? ==> motionX.from == fromDeps.value && motionY.from == fromDeps.value) &&
      (toDeps.Some? ==> motionX.to == toDeps.value && motionY.to == toDeps.value)
    }

    /** The component's invariant between renders. */
    ghost predicate Valid()
      reads this`yDeps, this`xDeps, this`Y, this`X
      reads this`fromDeps, this`toDeps, this`rangeDeps, this`yGen, this`motionX, this`motionY
    {
      MemosValid() && EnginesValid() &&
      (yDeps.Some? <==> rangeDeps.Some?) &&
      (rangeDeps.Some? ==> rangeDeps == Some(yGen))
    }

    /** After a render and its effects, both engines mirror the current resolved inputs. */
    ghost predicate Synced()
      reads this
    {
      yDeps == Some(CurrentYDeps()) && xDeps == Some(N()) &&
      fromDeps == Some(From()) && toDeps == Some(To()) &&
      Y == sample(N(), CurrentCurve()) && X == sample(N(), LinearCurve) &&
      motionX == Engine(From(), To(), X) && motionY == Engine(From(), To(), Y)
    }

    /** The component's first render with its initial inputs, followed by its mount effects. */
    constructor (sample: (int, Curve) -> seq<real>, damping: real, stiffness: real, mass: real)
      ensures Valid() && Synced()
      ensures this.sample == sample
      ensures rawN == Some(120.0) && rawFrom == Some(0.0) && rawTo == Some(120.0) && f == Linear
      ensures raw == Params(Some(1.0), Some(0.0), Some(0.0), Some(1.0), Some(E), Some(2.0),
                            Some(damping), Some(stiffness), Some(mass), Some(1.0), Some(0.0), Some(6.0))
      ensures calls == Both(FromUpdate(0)) + Both(ToUpdate(120)) + Ranges(X, Y)
    {
      this.sample := sample;
      rawN, rawFrom, rawTo, f := Some(120.0), Some(0.0), Some(120.0), Linear;
      raw := Params(Some(1.0), Some(0.0), Some(0.0), Some(1.0), Some(E), Some(2.0),
                    Some(damping), Some(stiffness), Some(mass), Some(1.0), Some(0.0), Some(6.0));
      var initial := sample(120, LinearCurve);
      Y, yDeps, yGen := initial, None, 0;
      X, xDeps := initial, None;
      fromDeps, toDeps, rangeDeps := None, None, None;
      motionX, motionY := Engine(0, 120, initial), Engine(0, 120, initial);
      calls := [];
      new;
      ToSafeNaturalOfNatural(0, MaxSafeFrames);
      ToSafeNaturalOfNatural(120, MaxSafeFrames);
      assert From() == 0 && To() == 120;
      var resampledY, resampledX := Render();
      assert resampledY;
    }

    /** The memoised Y (`useMemo` over the dependency key): resampled only when the key changed. */
    method MemoY() returns (resampled: bool)
      requires yDeps.Some? ==> Y == sample(yDeps.value.n, KeyCurve(yDeps.value))
      modifies this`Y, this`yDeps, this`yGen
      ensures resampled <==> old(yDeps) != Some(CurrentYDeps())
      ensures yDeps == Some(CurrentYDeps()) && Y == sample(N(), CurrentCurve())
      ensures resampled ==> yGen == old(yGen) + 1
      ensures !resampled ==> Y == old(Y) && yGen == old(yGen)
    {
      var p := Resolve(raw);
      var key := YDeps(N(), f, p);
      KeyCurveOfYDeps(N(), f, p);
      resampled := yDeps != Some(key);
      if resampled {
        Y := sample(N(), ResolveFunction(f, p));
        yDeps := Some(key);
        yGen := yGen + 1;
      }
    }

    /** The memoised counter range X (`useMemo` over n): resampled only when n changed. */
    method MemoX() returns (resampled: bool)
      requires xDeps.Some? ==> X == sample(xDeps.value, LinearCurve)
      modifies this`X, this`xDeps
      ensures resampled <==> old(xDeps) != Some(N())
      ensures xDeps == Some(N()) && X == sample(N(), LinearCurve)
      ensures !resampled ==> X == old(X)
    {
      resampled := xDeps != Some(N());
      if resampled {
        X := sample(N(), LinearCurve);
        xDeps := Some(N());
      }
    }

    /** The effect over `from`: pushes the resolved `from` into both engines when it changed. */
    method FromEffect()
      requires fromDeps.Some? ==> motionX.from == fromDeps.value && motionY.from == fromDeps.value
      modifies this`motionX, this`motionY, this`calls, this`fromDeps
      ensures fromDeps == Some(From())
      ensures motionX == old(motionX).(from := From()) && motionY == old(motionY).(from := From())
      ensures calls == old(calls) + Pushed(old(fromDeps) != Some(From()), Both(FromUpdate(From())))
    {
      if fromDeps != Some(From()) {
        motionX, motionY := motionX.(from := From()), motionY.(from := From());
        calls := calls + Both(FromUpdate(From()));
        fromDeps := Some(From());
      }
    }

    /** The effect over `to`: pushes the resolved `to` into both engines when it changed. */
    method ToEffect()
      requires toDeps.Some? ==> motionX.to == toDeps.value && motionY.to == toDeps.value
      modifies this`motionX, this`motionY, this`calls, this`toDeps
      ensures toDeps == Some(To())
      ensures motionX == old(motionX).(to := To()) && motionY == old(motionY).(to := To())
      ensures calls == old(calls) + Pushed(old(toDeps) != Some(To()), Both(ToUpdate(To())))
    {
      if toDeps != Some(To()) {
        motionX, motionY := motionX.(to := To()), motionY.(to := To());
        calls := calls + Both(ToUpdate(To()));
        toDeps := Some(To());
      }
    }

    /** The effect over Y's identity: pushes both ranges when Y is a new range. */
    method RangeEffect()
      requires rangeDeps == Some(yGen) ==> motionX.range == X && motionY.range == Y
      modifies this`motionX, this`motionY, this`calls, this`rangeDeps
      ensures rangeDeps == Some(yGen)
      ensures motionX == old(motionX).(range := X) && motionY == old(motionY).(range := Y)
      ensures calls == old(calls) + Pushed(old(rangeDeps) != Some(yGen), Ranges(X, Y))
    {
      if rangeDeps != Some(yGen) {
        motionX, motionY := motionX.(range := X), motionY.(range := Y);
        calls := calls + Ranges(X, Y);
        rangeDeps := Some(yGen);
      }
    }

    /**
     * The memoised ranges of one render: Y is resampled exactly when its key
     * changed and X exactly when n changed, which can only happen together
     * with Y, since n is part of Y's key.
     */
    method Memoise() returns (resampledY: bool, resampledX: bool)
      requires MemosValid()
      modifies this`Y, this`yDeps, this`yGen, this`X, this`xDeps
      ensures MemosValid()
      ensures yDeps == Some(CurrentYDeps()) && xDeps == Some(N())
      ensures Y == sample(N(), CurrentCurve()) && X == sample(N(), LinearCurve)
      ensures resampledY <==> old(yDeps) != Some(CurrentYDeps())
      ensures resampledX <==> old(xDeps) != Some(N())
      ensures resampledX ==> resampledY
      ensures resampledY ==> yGen == old(yGen) + 1
      ensures !resampledY ==> Y == old(Y) && X == old(X) && yGen == old(yGen)
    {
      resampledY := MemoY();
      resampledX := MemoX();
      KeyCurveOfYDeps(N(), f, Resolve(raw));
    }

    /** The three effects of one render, in their declaration order. */
    method RunEffects()
      requires EnginesValid()
      modifies this`fromDeps, this`toDeps, this`rangeDeps, this`motionX, this`motionY, this`calls
      ensures EnginesValid()
      ensures fromDeps == Some(From()) && toDeps == Some(To()) && rangeDeps == Some(yGen)
      ensures motionX == Engine(From(), To(), X) && motionY == Engine(From(), To(), Y)
      ensures calls == old(calls)
                       + Pushed(old(fromDeps) != Some(From()), Both(FromUpdate(From())))
                       + Pushed(old(toDeps) != Some(To()), Both(ToUpdate(To())))
                       + Pushed(old(rangeDeps) != Some(yGen), Ranges(X, Y))
    {
      FromEffect();
      ToEffect();
      RangeEffect();
    }

    /**
     * One render followed by its effects: the ranges are resampled only when
     * their keys changed, and each effect pushes into both engines only when
     * its own dependency changed. Afterwards both engines mirror the current
     * resolved bounds and the freshest ranges.
     */
    method Render() returns (resampledY: bool, resampledX: bool)
      requires Valid()
      modifies this`Y, this`yDeps, this`yGen, this`X, this`xDeps
      modifies this`fromDeps, this`toDeps, this`rangeDeps, this`motionX, this`motionY, this`calls
      ensures Valid() && Synced()
      ensures resampledY <==> old(yDeps) != Some(CurrentYDeps())
      ensures resampledX <==> old(xDeps) != Some(N())
      ensures resampledX ==> resampledY
      ensures resampledY ==> yGen == old(yGen) + 1
      ensures !resampledY ==> Y == old(Y) && X == old(X) && yGen == old(yGen)
      ensures calls == old(calls)
                       + Pushed(old(fromDeps) != Some(From()), Both(FromUpdate(From())))
                       + Pushed(old(toDeps) != Some(To()), Both(ToUpdate(To())))
                       + Pushed(resampledY, Ranges(X, Y))
    {
      resampledY, resampledX := Memoise();
      assert EnginesValid() && (rangeDeps == Some(yGen) <==> !resampledY);
      RunEffects();
    }

    /** Typing into the n input also writes the same raw value into `to`. */
    method SetN(v: Option<real>)
      requires Valid()
      modifies this`rawN, this`rawTo
      ensures Valid()
      ensures rawN == v && rawTo == v
      ensures To() == N()
    {
      rawN := v;
      rawTo := v;
    }

    /** Typing into the `from` input; the key of Y does not depend on it. */
    method SetFrom(v: Option<real>)
      requires Valid()
      modifies this`rawFrom
      ensures Valid()
      ensures rawFrom == v
      ensures CurrentYDeps() == old(CurrentYDeps())
    {
      rawFrom := v;
    }

    /** Typing into the `to` input; the key of Y does not depend on it. */
    method SetTo(v: Option<real>)
      requires Valid()
      modifies this`rawTo
      ensures Valid()
      ensures rawTo == v
      ensures CurrentYDeps() == old(CurrentYDeps())
    {
      rawTo := v;
    }

    /** Selecting a family; a different family always changes the key of Y. */
    method SetFunction(g: Family)
      requires Valid()
      modifies this`f
      ensures Valid()
      ensures f == g
      ensures g != old(f) ==> CurrentYDeps() != old(CurrentYDeps())
    {
      f := g;
    }

    /** Typing into the input of a curve parameter. */
    method SetParam(q: Param, v: Option<real>)
      requires Valid()
      modifies this`raw
      ensures Valid()
      ensures raw == old(raw).With(q, v)
      ensures Resolved() == old(Resolved()).With(q, ResolveParam(q, v))
      ensures q !in Inputs(f) ==> CurrentYDeps() == old(CurrentYDeps())
      ensures q in Inputs(f) ==>
                (CurrentYDeps() == old(CurrentYDeps()) <==> ResolveParam(q, v) == old(Resolved()).Get(q))
    {
      ResolveWith(raw, q, v);
      RawEditKey(N(), f, raw, q, v);
      raw := raw.With(q, v);
    }
  }

  /**
   * A user edits a curve parameter and the component re-renders: the range is
   * resampled, and pushed into the engines, exactly when the parameter belongs
   * to the selected family and its resolved value changed.
   */
  method EditParam(c: Component, q: Param, v: Option<real>) returns (resampled: bool)
    requires c.Valid() && c.Synced()
    modifies c`raw, c`Y, c`yDeps, c`yGen, c`X, c`xDeps
    modifies c`fromDeps, c`toDeps, c`rangeDeps, c`motionX, c`motionY, c`calls
    ensures c.Valid() && c.Synced()
    ensures c.f == old(c.f) && c.raw == old(c.raw).With(q, v)
    ensures c.rawN == old(c.rawN) && c.rawFrom == old(c.rawFrom) && c.rawTo == old(c.rawTo)
    ensures resampled <==> q in Inputs(old(c.f)) && ResolveParam(q, v) != old(c.Resolved()).Get(q)
    ensures resampled ==> c.yGen == old(c.yGen) + 1 && c.calls == old(c.calls) + Ranges(c.X, c.Y)
    ensures !resampled ==> c.Y == old(c.Y) && c.X == old(c.X) && c.calls == old(c.calls)
  {
    c.SetParam(q, v);
    var resampledX;
    resampled, resampledX := c.Render();
  }

  /**
   * A user edits n and the component re-renders: both engines end with
   * `to` equal to the new n, and the counter range is the linear sample of n.
   */
  method EditN(c: Component, v: Option<real>) returns (resampled: bool)
    requires c.Valid() && c.Synced()
    modifies c`rawN, c`rawTo, c`Y, c`yDeps, c`yGen, c`X, c`xDeps
    modifies c`fromDeps, c`toDeps, c`rangeDeps, c`motionX, c`motionY, c`calls
    ensures c.Valid() && c.Synced()
    ensures c.rawN == v && c.rawTo == v
    ensures c.rawFrom == old(c.rawFrom) && c.f == old(c.f) && c.raw == old(c.raw)
    ensures c.To() == c.N() == ToSafeNatural(v)
    ensures c.motionX.to == c.N() && c.motionY.to == c.N()
    ensures resampled <==> old(c.yDeps) != Some(c.CurrentYDeps())
    ensures c.calls == old(c.calls)
                       + Pushed(c.To() != old(c.To()), Both(ToUpdate(c.To())))
                       + Pushed(resampled, Ranges(c.X, c.Y))
  {
    c.SetN(v);
    assert c.fromDeps == Some(c.From());
    var resampledX;
    resampled, resampledX := c.Render();
  }
}
