/** Golden-section line search and box-constrained steepest ascent/descent. */
module OptimizationMethods {
  import opened Floats
  import opened Outcomes
  import opened MathTools
  import opened Vectors
  import opened Differentiation

  datatype OptimizationType = MAXIMIZE | MINIMIZE

  datatype OptimizationResult<T> = OptimizationResult(argument: T, value: real)

  /** The only square root the searches take is that of 5, for the golden ratio. */
  ghost predicate SqrtOfFive(m: MathLib)
  {
    0.0 <= m.sqrt(5.0) && m.sqrt(5.0) * m.sqrt(5.0) == 5.0
  }

  predicate IsGoldenRatio(r: real)
  {
    r * r + r == 1.0 && 0.0 < r < 1.0
  }

  /** `GS_RATIO2 = (Math.Sqrt(5) - 1)/2`: with an exact square root it is the
      golden ratio r, the positive root of r² + r = 1. */
  function GoldenRatio(m: MathLib): (r: real)
    requires SqrtOfFive(m)
    ensures IsGoldenRatio(r)
  {
    var s := m.sqrt(5.0);
    GoldenRoot(s);
    (s - 1.0) / 2.0
  }

  /** (s - 1)/2 for the non-negative square root s of 5. */
  lemma GoldenRoot(s: real)
    requires 0.0 <= s && s * s == 5.0
    ensures IsGoldenRatio((s - 1.0) / 2.0)
  {
    if s <= 1.0 {
      MulMono(s, s, 1.0);
      assert false;
    }
    if 3.0 <= s {
      MulMono(s, 3.0, s);
      assert false;
    }
    var r := (s - 1.0) / 2.0;
    assert 4.0 * (r * r) == (s - 1.0) * (s - 1.0);
    assert (s - 1.0) * (s - 1.0) == s * s - 2.0 * s + 1.0;
  }

  lemma MulMono(x: real, y: real, z: real)
    requires 0.0 <= x
    ensures y <= z ==> x * y <= x * z
  {
  }

  lemma MulStrictMono(x: real, y: real, z: real)
    requires 0.0 < x
    ensures y < z ==> x * y < x * z
  {
  }

  /** The two identities the bracket updates rest on, scaled by a width W. */
  lemma GoldenAlgebra(r: real, width: real)
    requires r * r + r == 1.0
    ensures r * r * width == width - r * width
    ensures r * r * (r * width) == r * width - r * r * width
  {
    assert r * r == 1.0 - r;
    calc {
      r * r * (r * width);
      r * (r * r * width);
      r * (width - r * width);
      r * width - r * r * width;
    }
  }

  /** The state of the search: the bracket [a, b], the interior points v < w with
      their values, and L = r(b - a). */
  datatype Bracket = Bracket(a: real, b: real, v: real, w: real, fv: real, fw: real, len: real)

  /** v and w split [a, b] in the golden ratio and their values are cached. */
  predicate BracketInv(f: seq<real> -> real, r: real, br: Bracket)
  {
    && br.len == r * (br.b - br.a)
    && br.v == br.a + Sqr(r) * (br.b - br.a)
    && br.w == br.a + r * (br.b - br.a)
    && br.fv == f([br.v])
    && br.fw == f([br.w])
  }

  function InitialBracket(f: seq<real> -> real, r: real, a: real, b: real): Bracket
  {
    var v, w := a + Sqr(r) * (b - a), a + r * (b - a);
    Bracket(a, b, v, w, f([v]), f([w]), r * (b - a))
  }

  /** The left part [a, v] is dropped when w is the better interior point:
      larger for MAXIMIZE, smaller for MINIMIZE. Ties drop the right part. */
  predicate DiscardsLeft(t: OptimizationType, fv: real, fw: real)
  {
    (t == MAXIMIZE && fv < fw) || (t == MINIMIZE && fv > fw)
  }

  /** One iteration of the loop, with the updates in the order the source makes them. */
  function GsStep(f: seq<real> -> real, r: real, t: OptimizationType, br: Bracket): Bracket
  {
    if DiscardsLeft(t, br.fv, br.fw) then
      var a := br.v;
      var w := a + r * br.len;
      Bracket(a, br.b, br.w, w, br.fw, f([w]), r * (br.b - a))
    else
      var b := br.w;
      var v := br.a + Sqr(r) * br.len;
      Bracket(br.a, b, v, br.v, f([v]), br.fv, r * (b - br.a))
  }

  /** Dropping the left part: [v, b] is r times as wide as [a, b], the old w becomes
      the new v and a fresh w is placed at a + r·L. */
  lemma DiscardLeftStep(f: seq<real> -> real, r: real, t: OptimizationType, br: Bracket)
    requires IsGoldenRatio(r) && BracketInv(f, r, br) && DiscardsLeft(t, br.fv, br.fw)
    ensures BracketInv(f, r, GsStep(f, r, t, br))
    ensures GsStep(f, r, t, br).b - GsStep(f, r, t, br).a == r * (br.b - br.a)
    ensures br.a <= br.b ==> br.a <= GsStep(f, r, t, br).a <= GsStep(f, r, t, br).b <= br.b
  {
    var next := GsStep(f, r, t, br);
    var width := br.b - br.a;
    GoldenAlgebra(r, width);
    assert next.a == br.a + r * r * width;
    assert next.b - next.a == r * width;
    assert next.v == next.a + Sqr(r) * (next.b - next.a) by {
      assert Sqr(r) * (r * width) == r * r * (r * width);
    }
    if br.a <= br.b {
      assert 0.0 <= r * width;
    }
  }

  /** Dropping the right part: [a, w] is r times as wide as [a, b], the old v becomes
      the new w and a fresh v is placed at a + r²·L. */
  lemma DiscardRightStep(f: seq<real> -> real, r: real, t: OptimizationType, br: Bracket)
    requires IsGoldenRatio(r) && BracketInv(f, r, br) && !DiscardsLeft(t, br.fv, br.fw)
    ensures BracketInv(f, r, GsStep(f, r, t, br))
    ensures GsStep(f, r, t, br).b - GsStep(f, r, t, br).a == r * (br.b - br.a)
    ensures br.a <= br.b ==> br.a <= GsStep(f, r, t, br).a <= GsStep(f, r, t, br).b <= br.b
  {
    var next := GsStep(f, r, t, br);
    var width := br.b - br.a;
    assert next.b - next.a == r * width;
    assert next.v == next.a + Sqr(r) * (next.b - next.a) by {
      assert Sqr(r) * br.len == r * r * (r * width);
    }
    if br.a <= br.b {
      assert r * width <= 1.0 * width;
    }
  }

  /** Each iteration keeps the invariant, shrinks the bracket (and L) by the factor
      r, and keeps the new bracket inside the old one. */
  lemma GsStepPreserves(f: seq<real> -> real, r: real, t: OptimizationType, br: Bracket)
    requires IsGoldenRatio(r) && BracketInv(f, r, br)
    ensures BracketInv(f, r, GsStep(f, r, t, br))
    ensures GsStep(f, r, t, br).b - GsStep(f, r, t, br).a == r * (br.b - br.a)
    ensures GsStep(f, r, t, br).len == r * br.len
    ensures br.a <= br.b ==> br.a <= GsStep(f, r, t, br).a <= GsStep(f, r, t, br).b <= br.b
  {
    if DiscardsLeft(t, br.fv, br.fw) {
      DiscardLeftStep(f, r, t, br);
    } else {
      DiscardRightStep(f, r, t, br);
    }
  }

  /** The measure the loop decreases by at least 1 per iteration while L >= eps. */
  function GsMeasure(r: real, eps: real, br: Bracket): real
    requires 0.0 < r < 1.0 && 0.0 < eps
  {
    LenMeasure(r, eps, br.len)
  }

  function LenMeasure(r: real, eps: real, len: real): real
    requires 0.0 < r < 1.0 && 0.0 < eps
  {
    if len <= 0.0 then 0.0 else len / ((1.0 - r) * eps)
  }

  lemma GsMeasureDecreases(f: seq<real> -> real, r: real, t: OptimizationType, eps: real, br: Bracket)
    requires IsGoldenRatio(r) && 0.0 < eps && BracketInv(f, r, br) && eps <= br.len
    ensures 0.0 <= GsMeasure(r, eps, GsStep(f, r, t, br)) <= GsMeasure(r, eps, br) - 1.0
  {
    var len' := GsStepLen(f, r, t, br);
    LenMeasureStep(r, eps, br.len, len');
  }

  /** L / ((1 - r)·eps) drops by L / eps >= 1 when L becomes r·L. */
  lemma LenMeasureStep(r: real, eps: real, len: real, len': real)
    requires 0.0 < r < 1.0 && 0.0 < eps <= len && len' == r * len
    ensures 0.0 <= LenMeasure(r, eps, len') <= LenMeasure(r, eps, len) - 1.0
  {
    MulStrictMono(r, 0.0, len);
    MeasureArithmetic(r, eps, len);
  }

  /** The L of the next bracket, r·L. */
  lemma GsStepLen(f: seq<real> -> real, r: real, t: OptimizationType, br: Bracket) returns (len': real)
    requires IsGoldenRatio(r) && BracketInv(f, r, br)
    ensures len' == GsStep(f, r, t, br).len == r * br.len
  {
    GsStepPreserves(f, r, t, br);
    len' := GsStep(f, r, t, br).len;
  }

  lemma MeasureArithmetic(r: real, eps: real, len: real)
    requires 0.0 < r < 1.0 && 0.0 < eps <= len
    ensures 0.0 <= (r * len) / ((1.0 - r) * eps) <= len / ((1.0 - r) * eps) - 1.0
  {
    var d := (1.0 - r) * eps;
    MulStrictMono(1.0 - r, 0.0, eps);
    var before, after := len / d, (r * len) / d;
    assert before * d == len && after * d == r * len;
    var gap := before - after;
    assert gap * d == (1.0 - r) * len;
    assert gap * eps == len by {
      assert (1.0 - r) * (gap * eps) == (1.0 - r) * len;
      MulCancel(1.0 - r, gap * eps, len);
    }
    MulStrictMono(eps, gap, 1.0);
    assert 1.0 <= gap;
    MulStrictMono(r, 0.0, len);
    MulStrictMono(d, after, 0.0);
    assert 0.0 <= after;
  }

  lemma MulCancel(x: real, y: real, z: real)
    requires x != 0.0 && x * y == x * z
    ensures y == z
  {
    assert x * (y - z) == 0.0;
  }

  /** The `while (L >= eps)` loop, from a bracket onwards. */
  function GsLoop(f: seq<real> -> real, r: real, t: OptimizationType, eps: real, br: Bracket): (final: Bracket)
    requires IsGoldenRatio(r) && 0.0 < eps && BracketInv(f, r, br)
    decreases GsMeasure(r, eps, br)
  {
    if br.len < eps then br
    else
      GsStepPreserves(f, r, t, br);
      GsMeasureDecreases(f, r, t, eps, br);
      GsLoop(f, r, t, eps, GsStep(f, r, t, br))
  }

  /** The search: run the loop on [a, b], then return the middle of [a, a + L] with
      its value. */
  function GoldenSection(f: seq<real> -> real, r: real, a: real, b: real, eps: real, t: OptimizationType): OptimizationResult<real>
    requires IsGoldenRatio(r) && 0.0 < eps
  {
    var final := GsLoop(f, r, t, eps, InitialBracket(f, r, a, b));
    var res := final.a + final.len / 2.0;
    OptimizationResult(res, f([res]))
  }

  /** The final bracket keeps the invariant, lies inside the starting one, and has
      L < eps, so its width is below eps / r. */
  lemma {:induction false} GsLoopFinal(f: seq<real> -> real, r: real, t: OptimizationType, eps: real, br: Bracket)
    requires IsGoldenRatio(r) && 0.0 < eps && BracketInv(f, r, br)
    ensures BracketInv(f, r, GsLoop(f, r, t, eps, br))
    ensures GsLoop(f, r, t, eps, br).len < eps
    ensures br.a <= br.b ==> br.a <= GsLoop(f, r, t, eps, br).a <= GsLoop(f, r, t, eps, br).b <= br.b
    decreases GsMeasure(r, eps, br)
  {
    if eps <= br.len {
      GsStepPreserves(f, r, t, br);
      GsMeasureDecreases(f, r, t, eps, br);
      GsLoopFinal(f, r, t, eps, GsStep(f, r, t, br));
    }
  }

  /** For a <= b the returned argument lies in the final bracket, and therefore in
      [a, b]; that bracket keeps the invariant and its L = r(b - a) is below eps, so
      it is narrower than eps / r; the value is f at the argument. */
  lemma GoldenSectionResult(f: seq<real> -> real, r: real, a: real, b: real, eps: real, t: OptimizationType)
    requires IsGoldenRatio(r) && 0.0 < eps && a <= b
    ensures var res := GoldenSection(f, r, a, b, eps, t);
            var final := GsLoop(f, r, t, eps, InitialBracket(f, r, a, b));
            && final.a <= res.argument <= final.b
            && BracketInv(f, r, final) && final.len < eps
            && a <= res.argument <= b
            && res.value == f([res.argument])
  {
    var start := InitialBracket(f, r, a, b);
    var final := GsLoop(f, r, t, eps, start);
    GoldenSectionIs(f, r, a, b, eps, t);
    assert BracketInv(f, r, start) && start.a == a && start.b == b;
    GsLoopFinal(f, r, t, eps, start);
    MidpointInside(f, r, final);
  }

  lemma GoldenSectionIs(f: seq<real> -> real, r: real, a: real, b: real, eps: real, t: OptimizationType)
    requires IsGoldenRatio(r) && 0.0 < eps
    ensures var final := GsLoop(f, r, t, eps, InitialBracket(f, r, a, b));
            GoldenSection(f, r, a, b, eps, t) == OptimizationResult(final.a + final.len / 2.0, f([final.a + final.len / 2.0]))
  {
  }

  /** a + L/2 with L = r(b - a) lies in [a, b]. */
  lemma MidpointInside(f: seq<real> -> real, r: real, br: Bracket)
    requires IsGoldenRatio(r) && BracketInv(f, r, br) && br.a <= br.b
    ensures br.a <= br.a + br.len / 2.0 <= br.b
  {
    var width := br.b - br.a;
    MulMono(width, r, 1.0);
    MulMono(r, 0.0, width);
    assert br.len == r * width;
    assert width * r <= width * 1.0;
    assert r * 0.0 <= r * width;
  }

  /** The better interior value is never lost: for MAXIMIZE the larger of fv, fw
      does not decrease; for MINIMIZE the smaller does not increase. */
  lemma GsStepKeepsBest(f: seq<real> -> real, r: real, t: OptimizationType, br: Bracket)
    ensures var next := GsStep(f, r, t, br);
            (t == MAXIMIZE ==> Max(next.fv, next.fw) >= Max(br.fv, br.fw))
            && (t == MINIMIZE ==> Min(next.fv, next.fw) <= Min(br.fv, br.fw))
  {
  }

  function Max(x: real, y: real): real { if x < y then y else x }

  function Min(x: real, y: real): real { if x < y then x else y }

  /** The loop of the source. `eps > 0` is needed: for `eps <= 0` on a non-empty
      bracket the loop never ends. */
  method GoldenSectionMethod(m: MathLib, f: seq<real> -> real, a: real, b: real, eps: real, t: OptimizationType)
    returns (res: OptimizationResult<real>)
    requires SqrtOfFive(m) && 0.0 < eps
    ensures res == GoldenSection(f, GoldenRatio(m), a, b, eps, t)
  {
    var r := GoldenRatio(m);
    var lo, hi, v, w, fv, fw, L := StartBracket(f, r, a, b);
    ghost var start := Bracket(lo, hi, v, w, fv, fw, L);
    while L >= eps
      invariant BracketInv(f, r, Bracket(lo, hi, v, w, fv, fw, L))
      invariant GsLoop(f, r, t, eps, Bracket(lo, hi, v, w, fv, fw, L)) == GsLoop(f, r, t, eps, start)
      decreases GsMeasure(r, eps, Bracket(lo, hi, v, w, fv, fw, L))
    {
      ghost var br := Bracket(lo, hi, v, w, fv, fw, L);
      GsStepPreserves(f, r, t, br);
      GsMeasureDecreases(f, r, t, eps, br);
      lo, hi, v, w, fv, fw, L := NarrowBracket(f, r, t, lo, hi, v, w, fv, fw, L);
    }
    var x := lo + L / 2.0;
    res := OptimizationResult(x, f([x]));
  }

  /** The set-up before the loop: the interior points of [a, b] and their values. */
  method StartBracket(f: seq<real> -> real, r: real, a: real, b: real)
    returns (lo: real, hi: real, v: real, w: real, fv: real, fw: real, L: real)
    requires IsGoldenRatio(r)
    ensures Bracket(lo, hi, v, w, fv, fw, L) == InitialBracket(f, r, a, b)
    ensures BracketInv(f, r, Bracket(lo, hi, v, w, fv, fw, L))
  {
    lo, hi := a, b;
    v, w := lo + Sqr(r) * (hi - lo), lo + r * (hi - lo);
    fv, fw := f([v]), f([w]);
    L := r * (hi - lo);
  }

  /** One pass of the loop body: drop the worse end and evaluate one new point. */
  method NarrowBracket(f: seq<real> -> real, r: real, t: OptimizationType,
                       lo0: real, hi0: real, v0: real, w0: real, fv0: real, fw0: real, L0: real)
    returns (lo: real, hi: real, v: real, w: real, fv: real, fw: real, L: real)
    ensures Bracket(lo, hi, v, w, fv, fw, L) == GsStep(f, r, t, Bracket(lo0, hi0, v0, w0, fv0, fw0, L0))
  {
    ghost var br := Bracket(lo0, hi0, v0, w0, fv0, fw0, L0);
    lo, hi, v, w, fv, fw, L := lo0, hi0, v0, w0, fv0, fw0, L0;
    if (t == MAXIMIZE && fv < fw) || (t == MINIMIZE && fv > fw) {
      assert DiscardsLeft(t, br.fv, br.fw);
      lo := v;
      v := w;
      fv := fw;
      w := lo + r * L;
      fw := f([w]);
    } else {
      hi := w;
      w := v;
      fw := fv;
      v := lo + Sqr(r) * L;
      fv := f([v]);
      assert !DiscardsLeft(t, br.fv, br.fw);
    }
    L := r * (hi - lo);
    ghost var nb := GsStep(f, r, t, br);
    assert nb.a == lo;
    assert nb.b == hi;
    assert nb.v == v;
    assert nb.w == w;
    assert nb.fv == fv;
    assert nb.fw == fw;
    assert nb.len == L;
  }

  /** `IsAllowedVector` from index i on: vMin[i] is read first, then v[i], then
      vMax[i] only when vMin[i] <= v[i]; an index past an array throws. */
  function AllowedFrom(v: seq<real>, lo: seq<real>, hi: seq<real>, n: int, i: nat): Result<bool>
    decreases n - i
  {
    if n <= i then Ok(true)
    else if |lo| <= i || |v| <= i then Err(IndexOutOfRange)
    else if !(lo[i] <= v[i]) then Ok(false)
    else if |hi| <= i then Err(IndexOutOfRange)
    else if !(v[i] <= hi[i]) then Ok(false)
    else AllowedFrom(v, lo, hi, n, i + 1)
  }

  lemma {:induction false} AllowedFromIff(v: seq<real>, lo: seq<real>, hi: seq<real>, n: int, i: nat)
    requires n <= |v| && n <= |lo| && n <= |hi|
    ensures AllowedFrom(v, lo, hi, n, i) == Ok(forall k :: i <= k < n ==> lo[k] <= v[k] <= hi[k])
    decreases n - i
  {
    if i < n {
      AllowedFromIff(v, lo, hi, n, i + 1);
    }
  }

  /** When the arrays are long enough, a vector is allowed iff every one of its
      first `Dim` components lies in its [min, max] interval. */
  lemma AllowedIff(v: seq<real>, lo: seq<real>, hi: seq<real>, n: int)
    requires n <= |v| && n <= |lo| && n <= |hi|
    ensures AllowedFrom(v, lo, hi, n, 0) == Ok(forall k :: 0 <= k < n ==> lo[k] <= v[k] <= hi[k])
  {
    AllowedFromIff(v, lo, hi, n, 0);
  }

  method IsAllowedVector(v: Vector, vMin: Vector, vMax: Vector) returns (r: Result<bool>)
    requires v.Valid()
    ensures r == AllowedFrom(v.x[..], vMin.x[..], vMax.x[..], v.n, 0)
  {
    for i := 0 to v.n
      invariant AllowedFrom(v.x[..], vMin.x[..], vMax.x[..], v.n, i) == AllowedFrom(v.x[..], vMin.x[..], vMax.x[..], v.n, 0)
    {
      if vMin.x.Length <= i || v.x.Length <= i {
        return Err(IndexOutOfRange);
      }
      if !(vMin.x[i] <= v.x[i]) {
        return Ok(false);
      }
      if vMax.x.Length <= i {
        return Err(IndexOutOfRange);
      }
      if !(v.x[i] <= vMax.x[i]) {
        return Ok(false);
      }
    }
    return Ok(true);
  }

  /** The configuration of one gradient search. */
  datatype Search = Search(
    f: seq<real> -> real, m: MathLib, t: OptimizationType,
    lo: seq<real>, hi: seq<real>,
    globalPrecision: real, gradOptPrecision: real, gradPrecision: real,
    gradOptRange: seq<real>, maxNumberOfSteps: int)

  ghost predicate ValidSearch(p: Search)
  {
    SqrtOfFive(p.m) && 0.0 < p.gradOptPrecision && 2 <= |p.gradOptRange|
  }

  function DirectionCoef(t: OptimizationType): real
  {
    if t == MAXIMIZE then 1.0 else -1.0
  }

  /** The `direction` closure: f along the line x + c·L·g, L being the first
      argument (the golden-section search only passes one). */
  function Direction(f: seq<real> -> real, c: real, x: seq<real>, g: seq<real>): seq<real> -> real
    requires |x| == |g|
  {
    args => f(Plus(x, Scaled(c * (if |args| == 0 then 0.0 else args[0]), g)))
  }

  /** One step: a golden-section search over `gradOptRange` for the step length λ
      along the gradient, then x + c·λ·grad. */
  function NextPoint(p: Search, x: seq<real>): (y: seq<real>)
    requires ValidSearch(p)
    ensures |y| == |x|
  {
    var g := GradientOf(p.f, p.gradPrecision, x);
    LineStep(p.m, p.f, DirectionCoef(p.t), p.t, x, g, p.gradOptRange[0], p.gradOptRange[1], p.gradOptPrecision)
  }

  /** x + c·λ·g, where λ maximizes (or minimizes) f along that line over [lo, hi]. */
  function LineStep(m: MathLib, f: seq<real> -> real, c: real, t: OptimizationType, x: seq<real>, g: seq<real>,
                    lo: real, hi: real, eps: real): (y: seq<real>)
    requires SqrtOfFive(m) && 0.0 < eps && |x| == |g|
    ensures |y| == |x|
  {
    Move(x, c, StepLength(m, f, c, t, x, g, lo, hi, eps), g)
  }

  /** x + (c·λ)·g. */
  function Move(x: seq<real>, c: real, lambda: real, g: seq<real>): (y: seq<real>)
    requires |x| == |g|
    ensures |y| == |x|
  {
    Plus(x, Scaled(c * lambda, g))
  }

  /** λ: the golden-section search of f along x + c·λ·g over [lo, hi]. */
  function StepLength(m: MathLib, f: seq<real> -> real, c: real, t: OptimizationType, x: seq<real>, g: seq<real>,
                      lo: real, hi: real, eps: real): real
    requires SqrtOfFive(m) && 0.0 < eps && |x| == |g|
  {
    GoldenSection(Direction(f, c, x, g), GoldenRatio(m), lo, hi, eps, t).argument
  }

  /** The exit test of the loop for the current point, `n` steps taken so far:
      in order, the step budget, the box, the gradient norm. */
  function Continues(p: Search, x: seq<real>, n: int): Result<bool>
  {
    if !(n < p.maxNumberOfSteps) then Ok(false) else Gate(p, x)
  }

  /** The part of the exit test after the step budget: x lies in the box and the
      gradient norm there exceeds `globalPrecision`. */
  function Gate(p: Search, x: seq<real>): Result<bool>
  {
    match AllowedFrom(x, p.lo, p.hi, |x|, 0)
      case Err(e) => Err(e)
      case Ok(allowed) => Ok(allowed && EuclideanNorm(p.m, GradientOf(p.f, p.gradPrecision, x)) > p.globalPrecision)
  }

  /** The loop in the abstract: from x after n steps, stop once the budget `max`
      is spent, otherwise let `gate` stop it (or fail) and `step` move on. */
  function Loop(step: seq<real> -> seq<real>, gate: seq<real> -> Result<bool>, max: int, x: seq<real>, n: int)
    : Result<seq<real>>
    decreases max - n
  {
    if !(n < max) then Ok(x)
    else match gate(x)
      case Err(e) => Err(e)
      case Ok(more) => if more then Loop(step, gate, max, step(x), n + 1) else Ok(x)
  }

  /** x0 after k applications of `step`. */
  function Steps(step: seq<real> -> seq<real>, x0: seq<real>, k: nat): seq<real>
  {
    if k == 0 then x0 else step(Steps(step, x0, k - 1))
  }

  /** The loop entered at the n-th iterate of x0 stops at the first step count
      k >= n at which the budget is spent or the gate closes, with that iterate. */
  lemma {:induction false} LoopStops(step: seq<real> -> seq<real>, gate: seq<real> -> Result<bool>, max: int,
                                     x0: seq<real>, n: nat, y: seq<real>) returns (k: nat)
    requires Loop(step, gate, max, Steps(step, x0, n), n) == Ok(y)
    ensures n <= k && (k == n || k <= max) && y == Steps(step, x0, k)
    ensures max <= k || gate(y) == Ok(false)
    decreases max - n
  {
    var x := Steps(step, x0, n);
    if n < max && gate(x) == Ok(true) {
      assert Steps(step, x0, n + 1) == step(x);
      k := LoopStops(step, gate, max, x0, n + 1, y);
    } else {
      k := n;
    }
  }

  /** `xj = xj + c·lambda·xjGrad` as a step function. */
  function StepOf(p: Search): seq<real> -> seq<real>
    requires ValidSearch(p)
  {
    x => NextPoint(p, x)
  }

  /** The `while` loop from point x after n steps. */
  function Descend(p: Search, x: seq<real>, n: int): Result<seq<real>>
    requires ValidSearch(p)
  {
    Loop(StepOf(p), x => Gate(p, x), p.maxNumberOfSteps, x, n)
  }

  /** One turn of the `while` loop: the exit test fails (throws), stops the loop
      at x, or lets it go on from the next point. */
  lemma DescendUnfold(p: Search, x: seq<real>, n: int)
    requires ValidSearch(p)
    ensures Descend(p, x, n) == match Continues(p, x, n)
                                  case Err(e) => Err(e)
                                  case Ok(more) => if more then Descend(p, NextPoint(p, x), n + 1) else Ok(x)
  {
    if n < p.maxNumberOfSteps && Gate(p, x) == Ok(true) {
      assert StepOf(p)(x) == NextPoint(p, x);
    }
  }

  /** The whole search from x0 (data `x0` of dimension `dim`). An empty or
      one-element `gradOptRange` throws when read; a start vector whose `Dim`
      differs from its data length makes the first `xj + c·L·grad` throw. */
  function GradientOptimizationSpec(p: Search, x0: seq<real>, dim: int): Result<OptimizationResult<seq<real>>>
    requires SqrtOfFive(p.m) && 0.0 < p.gradOptPrecision
  {
    if |p.gradOptRange| < 2 then Err(IndexOutOfRange)
    else if dim != |x0| then Err(NonMatchingDimensions)
    else match Descend(p, NextPoint(p, x0), 1)
      case Err(e) => Err(e)
      case Ok(x) => Ok(OptimizationResult(x, p.f(x)))
  }

  /** x0 after k steps. */
  function Iterate(p: Search, x0: seq<real>, k: nat): seq<real>
    requires ValidSearch(p)
  {
    Steps(StepOf(p), x0, k)
  }

  /** A step function that keeps the dimension keeps it over any number of steps. */
  lemma {:induction false} StepsLength(step: seq<real> -> seq<real>, x0: seq<real>, k: nat)
    requires forall x :: |step(x)| == |x|
    ensures |Steps(step, x0, k)| == |x0|
  {
    if k != 0 {
      StepsLength(step, x0, k - 1);
    }
  }

  /** Every step of the search keeps the dimension. */
  lemma StepKeepsLength(p: Search)
    requires ValidSearch(p)
    ensures forall x :: |StepOf(p)(x)| == |x|
  {
    forall x
      ensures |StepOf(p)(x)| == |x|
    {
      var y := NextPoint(p, x);
      assert StepOf(p)(x) == y;
    }
  }

  /** A successful search takes at least one step and at most max(1, maxNumberOfSteps);
      it returns the point after k steps, where the step budget is spent, the point is
      outside the box, or the gradient norm is at most `globalPrecision`; and the
      value is f at that point. */
  lemma GradientOptimizationResult(p: Search, x0: seq<real>, dim: int)
    requires SqrtOfFive(p.m) && 0.0 < p.gradOptPrecision
    requires GradientOptimizationSpec(p, x0, dim).Ok?
    ensures var res := GradientOptimizationSpec(p, x0, dim).value;
            && res.value == p.f(res.argument)
            && |res.argument| == |x0|
            && exists k: nat :: 1 <= k && (k == 1 || k <= p.maxNumberOfSteps) && res.argument == Iterate(p, x0, k)
                 && (p.maxNumberOfSteps <= k
                     || AllowedFrom(res.argument, p.lo, p.hi, |x0|, 0) == Ok(false)
                     || EuclideanNorm(p.m, GradientOf(p.f, p.gradPrecision, res.argument)) <= p.globalPrecision)
  {
    assert ValidSearch(p);
    var y := GradientOptimizationSpec(p, x0, dim).value.argument;
    var step, gate := StepOf(p), x => Gate(p, x);
    assert Steps(step, x0, 1) == NextPoint(p, x0);
    var k := LoopStops(step, gate, p.maxNumberOfSteps, x0, 1, y);
    StepKeepsLength(p);
    StepsLength(step, x0, k);
    assert y == Iterate(p, x0, k);
    assert p.maxNumberOfSteps <= k || Gate(p, y) == Ok(false);
  }

  /** `GradientOptimization`: the objective f and the step length search are pure;
      the vectors are `Vector` objects built afresh at each step. The `direction`
      closure of the source reads the current xj and gradient when called, so the
      model passes the current ones to each search. */
  method GradientOptimization(
    m: MathLib, f: seq<real> -> real, x0: Vector, t: OptimizationType,
    minValues: Vector, maxValues: Vector,
    globalPrecision: real, gradOptPrecision: real, gradPrecision: real,
    gradOptRange: seq<real>, maxNumberOfSteps: int)
    returns (r: Result<OptimizationResult<seq<real>>>)
    requires SqrtOfFive(m) && 0.0 < gradOptPrecision && x0.Valid()
    ensures r == GradientOptimizationSpec(
                   Search(f, m, t, minValues.x[..], maxValues.x[..], globalPrecision, gradOptPrecision, gradPrecision,
                          gradOptRange, maxNumberOfSteps),
                   x0.x[..], x0.n)
  {
    var p := Search(f, m, t, minValues.x[..], maxValues.x[..], globalPrecision, gradOptPrecision, gradPrecision,
                    gradOptRange, maxNumberOfSteps);
    var c := DirectionCoef(t);
    var xj := new Vector.Copy(x0);
    var xjGrad;
    ghost var probes;
    xjGrad, probes := GradientAt(f, gradPrecision, xj);
    if |gradOptRange| < 2 {
      return Err(IndexOutOfRange);
    }
    var gradOptMin, gradOptMax := gradOptRange[0], gradOptRange[1];
    if xj.n != xj.x.Length {
      return Err(NonMatchingDimensions);   // thrown by the first `xj + c·L·grad`
    }
    xj, xjGrad := Advance(m, f, c, t, xj, xjGrad, gradOptMin, gradOptMax, gradOptPrecision, gradPrecision);
    assert xj.x[..] == NextPoint(p, x0.x[..]);
    var last := DescendLoop(p, c, xj, xjGrad, minValues, maxValues, gradOptMin, gradOptMax);
    if last.Err? {
      return Err(last.error);
    }
    return Ok(OptimizationResult(last.value, f(last.value)));
  }

  /** The `while` loop of `GradientOptimization`, entered after the first step with
      n = 1; it returns the data of the final xj. */
  method DescendLoop(p: Search, c: real, xj0: Vector, xjGrad0: Vector, minValues: Vector, maxValues: Vector,
                     gradOptMin: real, gradOptMax: real)
    returns (r: Result<seq<real>>)
    requires ValidSearch(p) && c == DirectionCoef(p.t)
    requires gradOptMin == p.gradOptRange[0] && gradOptMax == p.gradOptRange[1]
    requires p.lo == minValues.x[..] && p.hi == maxValues.x[..]
    requires xj0.Valid() && xj0.n == xj0.x.Length && xjGrad0.Valid() && xjGrad0.n == xjGrad0.x.Length == xj0.x.Length
    requires xjGrad0.x[..] == GradientOf(p.f, p.gradPrecision, xj0.x[..])
    ensures r == Descend(p, xj0.x[..], 1)
  {
    var xj, xjGrad := xj0, xjGrad0;
    var n := 1;
    while true
      invariant 1 <= n
      invariant xj.Valid() && xj.n == xj.x.Length && xjGrad.Valid() && xjGrad.n == xjGrad.x.Length == xj.x.Length
      invariant xjGrad.x[..] == GradientOf(p.f, p.gradPrecision, xj.x[..])
      invariant Descend(p, xj.x[..], n) == Descend(p, xj0.x[..], 1)
      invariant p.lo == minValues.x[..] && p.hi == maxValues.x[..]
      decreases p.maxNumberOfSteps - n
    {
      var more := ExitTest(p, xj, xjGrad, minValues, maxValues, n);
      DescendUnfold(p, xj.x[..], n);
      if more.Err? {
        return Err(more.error);
      }
      if !more.value {
        break;
      }
      ghost var before := xj.x[..];
      xj, xjGrad := Advance(p.m, p.f, c, p.t, xj, xjGrad, gradOptMin, gradOptMax, p.gradOptPrecision, p.gradPrecision);
      assert xj.x[..] == NextPoint(p, before);
      n := n + 1;
    }
    return Ok(xj.x[..]);
  }

  /** The `while` condition of `GradientOptimization`, evaluated left to right. */
  method ExitTest(p: Search, xj: Vector, xjGrad: Vector, minValues: Vector, maxValues: Vector, n: int)
    returns (more: Result<bool>)
    requires xj.Valid() && xj.n == xj.x.Length && xjGrad.x[..] == GradientOf(p.f, p.gradPrecision, xj.x[..])
    requires p.lo == minValues.x[..] && p.hi == maxValues.x[..]
    ensures more == Continues(p, xj.x[..], n)
  {
    if !(n < p.maxNumberOfSteps) {
      return Ok(false);
    }
    var allowed := IsAllowedVector(xj, minValues, maxValues);
    if allowed.Err? {
      return Err(allowed.error);
    }
    if !allowed.value {
      return Ok(false);
    }
    var norm := xjGrad.Norm(p.m);
    return Ok(norm > p.globalPrecision);
  }

  /** `lambda = GoldenSectionMethod(direction, ...)`, `xj = xj + c*lambda*xjGrad`,
      `xjGrad = Gradient(f, gradPrecision, xj)`. */
  method Advance(
    m: MathLib, f: seq<real> -> real, c: real, t: OptimizationType, xj: Vector, xjGrad: Vector,
    gradOptMin: real, gradOptMax: real, gradOptPrecision: real, gradPrecision: real)
    returns (next: Vector, nextGrad: Vector)
    requires SqrtOfFive(m) && 0.0 < gradOptPrecision
    requires xj.Valid() && xj.n == xj.x.Length && xjGrad.Valid() && xjGrad.n == xjGrad.x.Length == xj.x.Length
    ensures next.Valid() && next.n == next.x.Length && nextGrad.Valid() && nextGrad.n == nextGrad.x.Length == next.x.Length
    ensures next.x[..] == LineStep(m, f, c, t, xj.x[..], xjGrad.x[..], gradOptMin, gradOptMax, gradOptPrecision)
    ensures nextGrad.x[..] == GradientOf(f, gradPrecision, next.x[..])
  {
    ghost var x, g := xj.x[..], xjGrad.x[..];
    var search := GoldenSectionMethod(m, Direction(f, c, xj.x[..], xjGrad.x[..]), gradOptMin, gradOptMax, gradOptPrecision, t);
    var lambda := search.argument;
    next := MoveAlong(xj, c, lambda, xjGrad);
    assert xj.x[..] == x && xjGrad.x[..] == g;
    ghost var y := next.x[..];
    assert y == Move(x, c, lambda, g);
    assert lambda == StepLength(m, f, c, t, x, g, gradOptMin, gradOptMax, gradOptPrecision);
    ghost var probes;
    nextGrad, probes := GradientAt(f, gradPrecision, next);
    assert next.x[..] == y && xj.x[..] == x && xjGrad.x[..] == g;
  }

  /** `xj + (c·λ)·xjGrad` on `Vector`s of matching dimensions. */
  method MoveAlong(xj: Vector, c: real, lambda: real, xjGrad: Vector) returns (next: Vector)
    requires xj.Valid() && xj.n == xj.x.Length && xjGrad.Valid() && xjGrad.n == xjGrad.x.Length == xj.x.Length
    ensures fresh(next) && fresh(next.x) && next.Valid() && next.n == next.x.Length
    ensures next.x[..] == Move(xj.x[..], c, lambda, xjGrad.x[..])
  {
    var s := c * lambda;
    var step := Vector.Scale(s, xjGrad);
    assert step.Ok? && step.value.x[..] == Scaled(s, xjGrad.x[..]) by {
      assert xjGrad.x[..xjGrad.n] == xjGrad.x[..];
    }
    var sum := Vector.Add(xj, step.value);
    assert sum.Ok? && sum.value.x[..] == Plus(xj.x[..], Scaled(s, xjGrad.x[..])) by {
      assert xj.x[..xj.n] == xj.x[..];
      assert step.value.x[..step.value.n] == step.value.x[..];
    }
    next := sum.value;
  }

  /** `SteepestAscent` with `Vector` bounds: MAXIMIZE. */
  method SteepestAscent(
    m: MathLib, f: seq<real> -> real, x0: Vector, minValues: Vector, maxValues: Vector,
    globalPrecision: real, gradOptPrecision: real, gradPrecision: real,
    gradOptRange: seq<real>, maxNumberOfSteps: int)
    returns (r: Result<OptimizationResult<seq<real>>>)
    requires SqrtOfFive(m) && 0.0 < gradOptPrecision && x0.Valid()
    ensures r == GradientOptimizationSpec(
                   Search(f, m, MAXIMIZE, minValues.x[..], maxValues.x[..], globalPrecision, gradOptPrecision, gradPrecision,
                          gradOptRange, maxNumberOfSteps),
                   x0.x[..], x0.n)
  {
    r := GradientOptimization(m, f, x0, MAXIMIZE, minValues, maxValues, globalPrecision, gradOptPrecision, gradPrecision,
                              gradOptRange, maxNumberOfSteps);
  }

  /** `SteepestDescent` with `Vector` bounds: MINIMIZE. */
  method SteepestDescent(
    m: MathLib, f: seq<real> -> real, x0: Vector, minValues: Vector, maxValues: Vector,
    globalPrecision: real, gradOptPrecision: real, gradPrecision: real,
    gradOptRange: seq<real>, maxNumberOfSteps: int)
    returns (r: Result<OptimizationResult<seq<real>>>)
    requires SqrtOfFive(m) && 0.0 < gradOptPrecision && x0.Valid()
    ensures r == GradientOptimizationSpec(
                   Search(f, m, MINIMIZE, minValues.x[..], maxValues.x[..], globalPrecision, gradOptPrecision, gradPrecision,
                          gradOptRange, maxNumberOfSteps),
                   x0.x[..], x0.n)
  {
    r := GradientOptimization(m, f, x0, MINIMIZE, minValues, maxValues, globalPrecision, gradOptPrecision, gradPrecision,
                              gradOptRange, maxNumberOfSteps);
  }

  /** `SteepestAscent` with array bounds, wrapped by `Vector.Of`: MAXIMIZE. */
  method SteepestAscentWithin(
    m: MathLib, f: seq<real> -> real, x0: Vector, minValues: array<real>, maxValues: array<real>,
    globalPrecision: real, gradOptPrecision: real, gradPrecision: real,
    gradOptRange: seq<real>, maxNumberOfSteps: int)
    returns (r: Result<OptimizationResult<seq<real>>>)
    requires SqrtOfFive(m) && 0.0 < gradOptPrecision && x0.Valid()
    ensures r == GradientOptimizationSpec(
                   Search(f, m, MAXIMIZE, minValues[..], maxValues[..], globalPrecision, gradOptPrecision, gradPrecision,
                          gradOptRange, maxNumberOfSteps),
                   x0.x[..], x0.n)
  {
    var lo := new Vector(minValues);
    var hi := new Vector(maxValues);
    r := GradientOptimization(m, f, x0, MAXIMIZE, lo, hi, globalPrecision, gradOptPrecision, gradPrecision,
                              gradOptRange, maxNumberOfSteps);
  }

  /** `SteepestDescent` with array bounds, wrapped by `Vector.Of`: MINIMIZE. */
  method SteepestDescentWithin(
    m: MathLib, f: seq<real> -> real, x0: Vector, minValues: array<real>, maxValues: array<real>,
    globalPrecision: real, gradOptPrecision: real, gradPrecision: real,
    gradOptRange: seq<real>, maxNumberOfSteps: int)
    returns (r: Result<OptimizationResult<seq<real>>>)
    requires SqrtOfFive(m) && 0.0 < gradOptPrecision && x0.Valid()
    ensures r == GradientOptimizationSpec(
                   Search(f, m, MINIMIZE, minValues[..], maxValues[..], globalPrecision, gradOptPrecision, gradPrecision,
                          gradOptRange, maxNumberOfSteps),
                   x0.x[..], x0.n)
  {
    var lo := new Vector(minValues);
    var hi := new Vector(maxValues);
    r := GradientOptimization(m, f, x0, MINIMIZE, lo, hi, globalPrecision, gradOptPrecision, gradPrecision,
                              gradOptRange, maxNumberOfSteps);
  }
}
