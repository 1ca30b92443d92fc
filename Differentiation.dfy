/** The central-difference gradient. */
module Differentiation {
  import opened Floats
  import opened Vectors

  /** x with coordinate i moved by +e (the `pArg` probe). */
  function PlusProbe(x: seq<real>, i: nat, e: real): seq<real>
    requires i < |x|
  {
    x[i := x[i] + e]
  }

  /** x with coordinate i moved by -e (the `mArg` probe). */
  function MinusProbe(x: seq<real>, i: nat, e: real): seq<real>
    requires i < |x|
  {
    x[i := x[i] - e]
  }

  /** Component i is (f(x + e·eᵢ) − f(x − e·eᵢ)) / (2e). */
  function GradientOf(f: seq<real> -> real, e: real, x: seq<real>): seq<real>
  {
    seq(|x|, i requires 0 <= i < |x| => Div(f(PlusProbe(x, i, e)) - f(MinusProbe(x, i, e)), 2.0 * e))
  }

  /** Moving one coordinate moves a dot product by that coordinate's weight. */
  lemma {:induction false} DotProductUpdate(c: seq<real>, x: seq<real>, i: nat, d: real)
    requires |c| == |x| && i < |x|
    ensures DotProduct(c, x[i := x[i] + d]) == DotProduct(c, x) + c[i] * d
    decreases |x|
  {
    var n := |x| - 1;
    var y := x[i := x[i] + d];
    assert c[..n] == c[..|c| - 1];
    if i < n {
      assert y[..n] == x[..n][i := x[i] + d];
      DotProductUpdate(c[..n], x[..n], i, d);
    } else {
      assert y[..n] == x[..n];
    }
  }

  /** y ↦ c·y + d on vectors of the dimension of c (0 elsewhere). */
  function Affine(c: seq<real>, d: real, y: seq<real>): real
  {
    if |y| == |c| then DotProduct(c, y) + d else 0.0
  }

  lemma AffineDifference(c: seq<real>, d: real, e: real, x: seq<real>, i: nat)
    requires |c| == |x| && i < |x| && e != 0.0
    ensures Div(Affine(c, d, PlusProbe(x, i, e)) - Affine(c, d, MinusProbe(x, i, e)), 2.0 * e) == c[i]
  {
    var base, ci := DotProduct(c, x), c[i];
    var up, down := Affine(c, d, PlusProbe(x, i, e)), Affine(c, d, MinusProbe(x, i, e));
    assert up == base + ci * e + d by {
      DotProductUpdate(c, x, i, e);
    }
    assert down == base + ci * -e + d by {
      DotProductUpdate(c, x, i, -e);
      assert MinusProbe(x, i, e) == x[i := x[i] + -e];
    }
    var w := 2.0 * e;
    assert up - down == ci * w by {
      TwiceScaled(ci, e);
    }
    DivOfMultiple(ci, w);
    assert Div(up - down, w) == ci;
  }

  lemma TwiceScaled(p: real, e: real)
    ensures p * e - p * -e == p * (2.0 * e)
  {
  }

  lemma DivOfMultiple(p: real, w: real)
    requires w != 0.0
    ensures Div(p * w, w) == p
  {
    var q := Div(p * w, w);
    assert (q - p) * w == 0.0;
  }

  /** Central differences are exact on affine functions: with `e != 0` the gradient
      of y ↦ c·y + d is c. */
  lemma GradientOfAffine(c: seq<real>, d: real, e: real, x: seq<real>)
    requires |c| == |x| && e != 0.0
    ensures GradientOf(y => Affine(c, d, y), e, x) == c
  {
    forall i | 0 <= i < |x|
      ensures GradientOf(y => Affine(c, d, y), e, x)[i] == c[i]
    {
      AffineDifference(c, d, e, x, i);
    }
  }

  /** `Gradient(f, e, params double[] x)`: one loop over the coordinates moves a
      clone of x up and another down at coordinate i, calls f on both, and puts the
      coordinate back. `probes` lists the arguments f receives, in call order. */
  method Gradient(f: seq<real> -> real, e: real, x: array<real>) returns (g: Vector, ghost probes: seq<seq<real>>)
    ensures fresh(g) && fresh(g.x) && g.Valid()
    ensures g.n == x.Length && g.x[..] == GradientOf(f, e, x[..])
    ensures |probes| == 2 * x.Length
    ensures forall i :: 0 <= i < x.Length ==>
              probes[2 * i] == PlusProbe(x[..], i, e) && probes[2 * i + 1] == MinusProbe(x[..], i, e)
  {
    var gradComponents := new real[x.Length];
    var pArg := new real[x.Length](i requires 0 <= i < x.Length reads x => x[i]);
    var mArg := new real[x.Length](i requires 0 <= i < x.Length reads x => x[i]);
    probes := [];
    for i := 0 to gradComponents.Length
      invariant pArg[..] == x[..] && mArg[..] == x[..]
      invariant forall k :: 0 <= k < i ==> gradComponents[k] == GradientOf(f, e, x[..])[k]
      invariant |probes| == 2 * i
      invariant forall k :: 0 <= k < i ==>
                  probes[2 * k] == PlusProbe(x[..], k, e) && probes[2 * k + 1] == MinusProbe(x[..], k, e)
    {
      var gi, up, down := CentralDifference(f, e, x, pArg, mArg, i);
      probes := probes + [up, down];
      gradComponents[i] := gi;
    }
    assert gradComponents[..] == GradientOf(f, e, x[..]);
    g := new Vector(gradComponents);
  }

  /** One pass of the loop: move coordinate i of both clones, call f on them, and
      put the coordinate back; `up` and `down` are the arguments f receives. */
  method CentralDifference(f: seq<real> -> real, e: real, x: array<real>, pArg: array<real>, mArg: array<real>, i: int)
    returns (gi: real, ghost up: seq<real>, ghost down: seq<real>)
    requires pArg != x && mArg != x && pArg != mArg
    requires 0 <= i < x.Length && pArg[..] == x[..] && mArg[..] == x[..]
    modifies pArg, mArg
    ensures pArg[..] == x[..] && mArg[..] == x[..]
    ensures gi == GradientOf(f, e, x[..])[i]
    ensures up == PlusProbe(x[..], i, e) && down == MinusProbe(x[..], i, e)
  {
    pArg[i] := pArg[i] + e;
    mArg[i] := mArg[i] - e;
    up, down := pArg[..], mArg[..];
    assert up == PlusProbe(x[..], i, e) && down == MinusProbe(x[..], i, e);
    gi := Div(f(pArg[..]) - f(mArg[..]), 2.0 * e);
    pArg[i] := x[i];
    mArg[i] := x[i];
  }

  /** `Gradient(f, e, Vector x)`: the array overload applied to the data array. */
  method GradientAt(f: seq<real> -> real, e: real, x: Vector) returns (g: Vector, ghost probes: seq<seq<real>>)
    ensures fresh(g) && fresh(g.x) && g.Valid()
    ensures g.n == x.x.Length && g.x[..] == GradientOf(f, e, x.x[..])
    ensures |probes| == 2 * x.x.Length
    ensures forall i :: 0 <= i < x.x.Length ==>
              probes[2 * i] == PlusProbe(x.x[..], i, e) && probes[2 * i + 1] == MinusProbe(x.x[..], i, e)
  {
    g, probes := Gradient(f, e, x.x);
  }
}
