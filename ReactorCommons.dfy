/** The chemistry of the reactor: the constant tables, the rate constants `R`, the
    temperature profile `X7`, the unpacking of a right-hand-side argument vector,
    the six right-hand sides `F1`..`F6`, the factor `V` and the quality criterion.

    The shared `X7.Parameters` array the source reads is passed in explicitly as
    `params`, the contents of that array at the time of the call. */
module Reactor {
  import opened Floats
  import opened Outcomes
  import DiffEqu

  /** Molar masses; index 0 is the reference mass, 1..6 the six components. */
  const M: seq<int> := [18, 84, 56, 42, 28, 92, 16]

  /** Pre-exponential factors of the thirteen reactions. */
  const U: seq<real> := [15.19, 8.18, 13.198, 3.543, 4723.7, 423.7, 204.41,
                         0.000001466, 0.013, 0.09, 0.000005428, 0.024, 0.00000592]

  /** Activation energies of the thirteen reactions. */
  const E: seq<real> := [25000.0, 25000.0, 25000.0, 25000.0, 40000.0, 40000.0, 40000.0,
                         20000.0, 20000.0, 20000.0, 20000.0, 20000.0, 20000.0]

  /** Weights of components 1..3 in the quality criterion (index 0 is unused). */
  const Q: seq<real> := [0.0, 7.8, 14.0, 14.0]

  const GSteam: real := 3500.0
  const GGasoline: real := 1750.0

  const MinDist: real := 0.0
  const MaxDist: real := 180.0
  const MinGradValue: real := 0.0
  const MaxGradValue: real := 100.0

  const DiffPrecision: real := 0.00001
  const OptimizationPrecision: real := 0.000001
  const GradOptPrecision: real := 0.00001

  const MaxNumberOfSteps: int := 1000

  const InitialX7Params: seq<real> := [0.5, 300.0]
  const MinX7Params: seq<real> := [0.0, 100.0]
  const MaxX7Params: seq<real> := [10.0, 1400.0]

  /** The pressure along the reactor, falling linearly from 5 at t = 0. */
  function P(t: real): (r: real)
    ensures t < 300.0 <==> 0.0 < r
    ensures 0.0 <= t ==> r <= 5.0
  {
    5.0 - t / 60.0
  }

  /** The body of the `X7` temperature profile for position `t` and parameters
      `a`, `b`: a linear ramp from 373 towards `b` on [0, 90), a power law above. */
  function X7Profile(m: MathLib, t: real, a: real, b: real): (r: real)
    ensures t == 0.0 ==> r == 373.0
    ensures 0.0 <= t < 90.0 && 373.0 <= b ==> 373.0 <= r <= b
    ensures 0.0 <= t < 90.0 && b <= 373.0 ==> b <= r <= 373.0
  {
    if 0.0 <= t && t < 90.0 then
      RampBetween(t, b);
      (b - 373.0) * t / 90.0 + 373.0
    else
      (1500.0 - b) * m.pow((t - 90.0) / 90.0, a) + b
  }

  /** On [0, 90) the ramp stays between its two end values 373 and `b`. */
  lemma RampBetween(t: real, b: real)
    requires 0.0 <= t < 90.0
    ensures 373.0 <= b ==> 373.0 <= (b - 373.0) * t / 90.0 + 373.0 <= b
    ensures b <= 373.0 ==> b <= (b - 373.0) * t / 90.0 + 373.0 <= 373.0
  {
    var s, d := t / 90.0, b - 373.0;
    MulDiv(d, t, 90.0);
    assert (b - 373.0) * t / 90.0 == d * s;
    if 0.0 <= d {
      FractionOf(d, s);
    } else {
      var e := -d;
      FractionOf(e, s);
      assert d * s == -(e * s);
    }
  }

  lemma MulDiv(x: real, y: real, z: real)
    requires z != 0.0
    ensures x * y / z == x * (y / z)
  {
  }

  /** A fraction `s` in [0, 1] of a non-negative `d` lies between 0 and `d`. */
  lemma FractionOf(d: real, s: real)
    requires 0.0 <= d && 0.0 <= s <= 1.0
    ensures 0.0 <= d * s <= d
  {
    assert d - d * s == d * (1.0 - s);
    assert 0.0 <= d * (1.0 - s);
  }

  /** The function the `X7` object wraps, on its full argument vector
      `[t, a, b, ...]`. Shorter vectors make the source throw; the total function
      gives 0.0 there, and `X7Eval` below carries the error instead. */
  function X7Function(m: MathLib): seq<real> -> real
  {
    args => if |args| < 3 then 0.0 else X7Profile(m, args[0], args[1], args[2])
  }

  /** `X7.Eval(t)`: the profile at `t` with the first two bound parameters; fewer
      than two parameters is an IndexOutOfRangeException. */
  function X7Eval(m: MathLib, params: seq<real>, t: real): (r: Result<real>)
    ensures r.Err? <==> |params| < 2
    ensures r.Err? ==> r.error == IndexOutOfRange
    ensures r.Ok? ==> r.value == X7Function(m)([t] + params)
  {
    if |params| < 2 then Err(IndexOutOfRange) else Ok(X7Profile(m, t, params[0], params[1]))
  }

  /** The rate constant of reaction `i`; the tables have thirteen entries and any
      other index fails with IndexOutOfRangeException. */
  function R(m: MathLib, i: int, x7: real): (r: Result<real>)
    ensures r.Ok? <==> 1 <= i <= 13
    ensures r.Err? ==> r.error == IndexOutOfRange
    ensures r.Ok? ==> r.value == U[i - 1] * m.exp(23.0 - Div(E[i - 1], x7))
  {
    if 1 <= i <= 13 then Ok(U[i - 1] * m.exp(23.0 - Div(E[i - 1], x7))) else Err(IndexOutOfRange)
  }

  /** `R(k, x7)` for the literal indices of the right-hand sides. */
  function Rate(m: MathLib, k: int, x7: real): real
    requires 1 <= k <= 13
  {
    R(m, k, x7).value
  }

  /** A right-hand-side argument vector `[t, x1, ..., x6]` unpacked, with the
      temperature `x7` at `t`. */
  datatype ReactorFunctionArguments = ReactorFunctionArguments(
    t: real, x1: real, x2: real, x3: real, x4: real, x5: real, x6: real, x7: real)
  {
    /** The i-th concentration (i = 7 is the temperature); any other index is an
        ArgumentException. */
    function x(i: int): (r: Result<real>)
      ensures r.Ok? <==> 1 <= i <= 7
      ensures r.Err? ==> r.error == ArgumentError
      ensures r.Ok? ==> r.value == [x1, x2, x3, x4, x5, x6, x7][i - 1]
    {
      match i
      case 1 => Ok(x1)
      case 2 => Ok(x2)
      case 3 => Ok(x3)
      case 4 => Ok(x4)
      case 5 => Ok(x5)
      case 6 => Ok(x6)
      case 7 => Ok(x7)
      case _ => Err(ArgumentError)
    }
  }

  /** `args[k]` when present, otherwise the 0.0 an unset property keeps. */
  function Component(args: seq<real>, k: nat): (r: real)
    ensures k < |args| ==> r == args[k]
    ensures |args| <= k ==> r == 0.0
  {
    if k < |args| then args[k] else 0.0
  }

  /** `new ReactorFunctionArguments(args)`: reading `args[0]` fails on an empty
      vector, evaluating `X7` fails on fewer than two parameters. */
  function Unpack(m: MathLib, params: seq<real>, args: seq<real>): (r: Result<ReactorFunctionArguments>)
    ensures r.Err? <==> |args| == 0 || |params| < 2
    ensures r.Err? ==> r.error == IndexOutOfRange
    ensures r.Ok? ==> r.value.t == args[0] && r.value.x7 == X7Profile(m, args[0], params[0], params[1])
    ensures r.Ok? ==> forall i :: 1 <= i <= 6 ==> r.value.x(i).value == Component(args, i)
  {
    if |args| == 0 then Err(IndexOutOfRange)
    else
      match X7Eval(m, params, args[0])
      case Err(e) => Err(e)
      case Ok(x7) =>
        Ok(ReactorFunctionArguments(args[0], Component(args, 1), Component(args, 2), Component(args, 3),
                                    Component(args, 4), Component(args, 5), Component(args, 6), x7))
  }

  /** `M[1]*x1 + ... + M[k]*xk`, summed from the first component up. */
  function WeightedSum(X: ReactorFunctionArguments, k: nat): real
    requires k <= 6
  {
    if k == 0 then 0.0 else WeightedSum(X, k - 1) + M[k] as real * X.x(k).value
  }

  /** `Q[1]*M[2]*x2 + ... + Q[k-1]*M[k]*xk`, summed from the second component up. */
  function QualitySum(X: ReactorFunctionArguments, k: nat): real
    requires 1 <= k <= 4
  {
    if k == 1 then 0.0 else QualitySum(X, k - 1) + Q[k - 1] * M[k] as real * X.x(k).value
  }

  lemma WeightedSumExpanded(X: ReactorFunctionArguments)
    ensures WeightedSum(X, 6) == 84.0 * X.x1 + 56.0 * X.x2 + 42.0 * X.x3 + 28.0 * X.x4 + 92.0 * X.x5 + 16.0 * X.x6
  {
    assert WeightedSum(X, 1) == 84.0 * X.x1;
    assert WeightedSum(X, 2) == WeightedSum(X, 1) + 56.0 * X.x2;
    assert WeightedSum(X, 3) == WeightedSum(X, 2) + 42.0 * X.x3;
    assert WeightedSum(X, 4) == WeightedSum(X, 3) + 28.0 * X.x4;
    assert WeightedSum(X, 5) == WeightedSum(X, 4) + 92.0 * X.x5;
  }

  lemma QualitySumExpanded(X: ReactorFunctionArguments)
    ensures QualitySum(X, 4) == 7.8 * 56.0 * X.x2 + 14.0 * 42.0 * X.x3 + 14.0 * 28.0 * X.x4
  {
    assert QualitySum(X, 2) == 7.8 * 56.0 * X.x2;
    assert QualitySum(X, 3) == QualitySum(X, 2) + 14.0 * 42.0 * X.x3;
  }

  /** `V` on unpacked arguments: s1 is the weighted sum of the six components,
      s2 = x7 * (G_GASOLINE + G_STEAM * s1 / M[0]), and the result
      509.209 * p(t) * s1 / s2. */
  function VFactor(X: ReactorFunctionArguments): real
  {
    var s1 := WeightedSum(X, 6);
    Div(509.209 * P(X.t) * s1, X.x7 * (GGasoline + GSteam * s1 / M[0] as real))
  }

  /** `V(args)`. */
  function VOf(m: MathLib, params: seq<real>, args: seq<real>): (r: Result<real>)
    ensures r.Ok? <==> Unpack(m, params, args).Ok?
  {
    match Unpack(m, params, args)
    case Err(e) => Err(e)
    case Ok(X) => Ok(VFactor(X))
  }

  /** V is positive while the pressure is (t < 300), the temperature is positive
      and the weighted concentration is positive. */
  lemma VPositive(X: ReactorFunctionArguments)
    requires X.t < 300.0 && 0.0 < X.x7 && 0.0 < WeightedSum(X, 6)
    ensures 0.0 < VFactor(X)
  {
    var s1 := WeightedSum(X, 6);
    var num := 509.209 * P(X.t) * s1;
    var den := X.x7 * (GGasoline + GSteam * s1 / M[0] as real);
    assert 0.0 < P(X.t);
    assert 0.0 < 509.209 * P(X.t);
    assert 0.0 < num by {
      PositiveProduct(509.209 * P(X.t), s1);
    }
    assert 0.0 < GSteam * s1 / M[0] as real;
    assert 0.0 < den by {
      PositiveProduct(X.x7, GGasoline + GSteam * s1 / M[0] as real);
    }
    PositiveQuotient(num, den);
  }

  lemma PositiveProduct(x: real, y: real)
    requires 0.0 < x && 0.0 < y
    ensures 0.0 < x * y
  {
  }

  lemma PositiveQuotient(x: real, y: real)
    requires 0.0 < x && 0.0 < y
    ensures 0.0 < Div(x, y)
  {
    var q := Div(x, y);
    assert q * y == x;
  }

  /** `V(args)`: unpacks the arguments, accumulates s1 over components 1..6, then
      divides. */
  method V(m: MathLib, params: seq<real>, args: array<real>) returns (r: Result<real>)
    ensures r == VOf(m, params, args[..])
  {
    var u := Unpack(m, params, args[..]);
    if u.Err? {
      return Err(u.error);
    }
    var X := u.value;
    var s1 := 0.0;
    for i := 1 to 7
      invariant s1 == WeightedSum(X, i - 1)
    {
      var xi := X.x(i);
      s1 := s1 + M[i] as real * xi.value;
    }
    var s2 := X.x7 * (GGasoline + GSteam * s1 / M[0] as real);
    VFactorOfSum(X, s1);
    r := Ok(Div(509.209 * P(X.t) * s1, s2));
  }

  lemma VFactorOfSum(X: ReactorFunctionArguments, s1: real)
    requires s1 == WeightedSum(X, 6)
    ensures VFactor(X) == Div(509.209 * P(X.t) * s1, X.x7 * (GGasoline + GSteam * s1 / M[0] as real))
  {
  }

  /** `QualityCriteria` on unpacked arguments: the Q-weighted mass of components
      2..4 over the mass of components 1..6. */
  function Quality(X: ReactorFunctionArguments): real
  {
    Div(QualitySum(X, 4), WeightedSum(X, 6))
  }

  /** `QualityCriteria(args)`. */
  function QualityCriteriaOf(m: MathLib, params: seq<real>, args: seq<real>): (r: Result<real>)
    ensures r.Ok? <==> Unpack(m, params, args).Ok?
  {
    match Unpack(m, params, args)
    case Err(e) => Err(e)
    case Ok(X) => Ok(Quality(X))
  }

  /** For non-negative concentrations with a positive total mass the criterion is
      a weighted mass fraction: between 0 and the largest weight, 14. */
  lemma QualityBounds(X: ReactorFunctionArguments)
    requires 0.0 <= X.x1 && 0.0 <= X.x2 && 0.0 <= X.x3 && 0.0 <= X.x4 && 0.0 <= X.x5 && 0.0 <= X.x6
    requires 0.0 < WeightedSum(X, 6)
    ensures 0.0 <= Quality(X) <= 14.0
  {
    WeightedSumExpanded(X);
    QualitySumExpanded(X);
    var upper, lower := QualitySum(X, 4), WeightedSum(X, 6);
    assert 0.0 <= upper <= 14.0 * lower;
    QuotientBetween(upper, lower, 14.0);
  }

  /** `0 <= x <= c*y` with `y` positive puts `x / y` in [0, c]. */
  lemma QuotientBetween(x: real, y: real, c: real)
    requires 0.0 < y && 0.0 <= x <= c * y
    ensures 0.0 <= Div(x, y) <= c
  {
    var q := Div(x, y);
    assert q * y == x;
    if q < 0.0 {
      var e := -q;
      PositiveProduct(e, y);
    }
    if c < q {
      var e := q - c;
      PositiveProduct(e, y);
    }
  }

  /** `QualityCriteria(args)`: unpacks the arguments, accumulates the upper sum over
      components 2..4 and the lower sum over 1..6, then divides. */
  method QualityCriteria(m: MathLib, params: seq<real>, args: array<real>) returns (r: Result<real>)
    ensures r == QualityCriteriaOf(m, params, args[..])
  {
    var u := Unpack(m, params, args[..]);
    if u.Err? {
      return Err(u.error);
    }
    var X := u.value;
    var upperSum := 0.0;
    for i := 2 to 5
      invariant upperSum == QualitySum(X, i - 1)
    {
      var xi := X.x(i);
      upperSum := upperSum + Q[i - 1] * M[i] as real * xi.value;
    }
    var lowerSum := 0.0;
    for i := 1 to 7
      invariant lowerSum == WeightedSum(X, i - 1)
    {
      var xi := X.x(i);
      lowerSum := lowerSum + M[i] as real * xi.value;
    }
    r := Ok(Div(upperSum, lowerSum));
  }

  /** Every rate constant is non-negative at temperature `x7`, as it is whenever
      the exponential is. */
  predicate RatesNonNegative(m: MathLib, x7: real)
  {
    forall k :: 1 <= k <= 13 ==> 0.0 <= Rate(m, k, x7)
  }

  /** The hypotheses under which the signs of the right-hand sides follow:
      non-negative rates, concentrations x1..x4 and factor `V`. */
  predicate Physical(m: MathLib, X: ReactorFunctionArguments)
  {
    RatesNonNegative(m, X.x7) && 0.0 <= X.x1 && 0.0 <= X.x2 && 0.0 <= X.x3 && 0.0 <= X.x4
    && 0.0 <= VFactor(X)
  }

  /** The six right-hand sides on unpacked arguments: each a combination of
      reaction rates times concentrations, times `V`. A component that is
      consumed is consumed in proportion to its own concentration, so under
      physical hypotheses its derivative is not negative once it is used up. */
  function Rhs1(m: MathLib, X: ReactorFunctionArguments): (r: real)
    ensures X.x1 == 0.0 ==> r == 0.0
    ensures Physical(m, X) ==> r <= 0.0
  {
    -(Rate(m, 1, X.x7) + Rate(m, 2, X.x7) + Rate(m, 3, X.x7) + Rate(m, 4, X.x7)) * X.x1 * VFactor(X)
  }

  function Rhs2(m: MathLib, X: ReactorFunctionArguments): (r: real)
    ensures Physical(m, X) && X.x2 == 0.0 ==> 0.0 <= r
  {
    (Rate(m, 3, X.x7) * X.x1 - (Rate(m, 6, X.x7) + Rate(m, 7, X.x7) + Rate(m, 10, X.x7) + Rate(m, 13, X.x7)) * X.x2) * VFactor(X)
  }

  function Rhs3(m: MathLib, X: ReactorFunctionArguments): (r: real)
    ensures Physical(m, X) && X.x3 == 0.0 ==> 0.0 <= r
  {
    (Rate(m, 2, X.x7) * X.x1 + Rate(m, 6, X.x7) * X.x2 - (Rate(m, 5, X.x7) + Rate(m, 9, X.x7) + Rate(m, 12, X.x7)) * X.x3) * VFactor(X)
  }

  function Rhs4(m: MathLib, X: ReactorFunctionArguments): (r: real)
    ensures Physical(m, X) && X.x4 == 0.0 ==> 0.0 <= r
  {
    (Rate(m, 1, X.x7) * X.x1 + Rate(m, 7, X.x7) * X.x2 + Rate(m, 5, X.x7) * X.x3 - (Rate(m, 8, X.x7) + Rate(m, 11, X.x7)) * X.x4) * VFactor(X)
  }

  function Rhs5(m: MathLib, X: ReactorFunctionArguments): (r: real)
    ensures Physical(m, X) ==> 0.0 <= r
  {
    (Rate(m, 10, X.x7) * X.x2 + Rate(m, 9, X.x7) * X.x3 + Rate(m, 8, X.x7) * X.x4) * VFactor(X)
  }

  function Rhs6(m: MathLib, X: ReactorFunctionArguments): (r: real)
    ensures Physical(m, X) ==> 0.0 <= r
  {
    (Rate(m, 4, X.x7) * X.x1 + Rate(m, 13, X.x7) * X.x2 + Rate(m, 12, X.x7) * X.x3 + Rate(m, 11, X.x7) * X.x4) * VFactor(X)
  }

  /** `F(i, args)`: `Fi(args)` for i in 1..6; any other index is an
      ArgumentException, raised before the arguments are looked at. */
  function F(i: int, m: MathLib, params: seq<real>, args: seq<real>): (r: Result<real>)
    ensures !(1 <= i <= 6) ==> r == Err(ArgumentError)
    ensures 1 <= i <= 6 ==> (r.Ok? <==> Unpack(m, params, args).Ok?)
    ensures 1 <= i <= 6 && r.Err? ==> r.error == IndexOutOfRange
  {
    if !(1 <= i <= 6) then Err(ArgumentError)
    else
      match Unpack(m, params, args)
      case Err(e) => Err(e)
      case Ok(X) =>
        Ok(match i
           case 1 => Rhs1(m, X)
           case 2 => Rhs2(m, X)
           case 3 => Rhs3(m, X)
           case 4 => Rhs4(m, X)
           case 5 => Rhs5(m, X)
           case _ => Rhs6(m, X))
  }

  /** Every amount one reaction consumes reappears as a production term of
      another right-hand side, so the six derivatives always sum to zero. */
  lemma MassConservation(m: MathLib, params: seq<real>, args: seq<real>)
    requires |args| != 0 && 2 <= |params|
    ensures F(1, m, params, args).value + F(2, m, params, args).value + F(3, m, params, args).value
          + F(4, m, params, args).value + F(5, m, params, args).value + F(6, m, params, args).value == 0.0
  {
    var X := Unpack(m, params, args).value;
    var v := VFactor(X);
    var r1, r2, r3, r4 := Rate(m, 1, X.x7), Rate(m, 2, X.x7), Rate(m, 3, X.x7), Rate(m, 4, X.x7);
    var r5, r6, r7, r8 := Rate(m, 5, X.x7), Rate(m, 6, X.x7), Rate(m, 7, X.x7), Rate(m, 8, X.x7);
    var r9, r10, r11, r12 := Rate(m, 9, X.x7), Rate(m, 10, X.x7), Rate(m, 11, X.x7), Rate(m, 12, X.x7);
    var r13 := Rate(m, 13, X.x7);
    var c1 := -(r1 + r2 + r3 + r4) * X.x1;
    var c2 := r3 * X.x1 - (r6 + r7 + r10 + r13) * X.x2;
    var c3 := r2 * X.x1 + r6 * X.x2 - (r5 + r9 + r12) * X.x3;
    var c4 := r1 * X.x1 + r7 * X.x2 + r5 * X.x3 - (r8 + r11) * X.x4;
    var c5 := r10 * X.x2 + r9 * X.x3 + r8 * X.x4;
    var c6 := r4 * X.x1 + r13 * X.x2 + r12 * X.x3 + r11 * X.x4;
    assert c1 + c2 + c3 + c4 + c5 + c6 == 0.0;
    SumOfScaled(c1, c2, c3, c4, c5, c6, v);
  }

  lemma SumOfScaled(c1: real, c2: real, c3: real, c4: real, c5: real, c6: real, v: real)
    requires c1 + c2 + c3 + c4 + c5 + c6 == 0.0
    ensures c1 * v + c2 * v + c3 * v + c4 * v + c5 * v + c6 * v == 0.0
  {
    assert c1 * v + c2 * v + c3 * v + c4 * v + c5 * v + c6 * v == (c1 + c2 + c3 + c4 + c5 + c6) * v;
  }

  /** `F(n, ·)` with the bound parameters, as the total right-hand side the solver
      takes; where the source throws, the stand-in value is 0.0. */
  function RightHandSide(m: MathLib, params: seq<real>, n: int): DiffEqu.RightHandSide
  {
    args => match F(n, m, params, args) case Ok(v) => v case Err(_) => 0.0
  }

  /** `F1`..`F6`, in order, as the solver's function list. */
  function ReactorFunctions(m: MathLib, params: seq<real>): (fs: seq<DiffEqu.RightHandSide>)
    ensures |fs| == 6
  {
    [RightHandSide(m, params, 1), RightHandSide(m, params, 2), RightHandSide(m, params, 3),
     RightHandSide(m, params, 4), RightHandSide(m, params, 5), RightHandSide(m, params, 6)]
  }

  /** With two bound parameters the solver's functions never fall back on the
      stand-in: on every non-empty argument vector they are `F1`..`F6`. */
  lemma ReactorFunctionsAgree(m: MathLib, params: seq<real>, n: int, args: seq<real>)
    requires 1 <= n <= 6 && 2 <= |params| && |args| != 0
    ensures F(n, m, params, args) == Ok(ReactorFunctions(m, params)[n - 1](args))
  {
  }
}
