/** Real vectors: value-level arithmetic, and the `Vector` class whose operators
    build new vectors from a dimension `n` and a data array `x`. */
module Vectors {
  import opened Floats
  import opened Outcomes
  import ArrayExtensions

  function Scaled(c: real, v: seq<real>): (r: seq<real>)
  {
    seq(|v|, i requires 0 <= i < |v| => c * v[i])
  }

  function Plus(v: seq<real>, w: seq<real>): (r: seq<real>)
    requires |v| == |w|
  {
    seq(|v|, i requires 0 <= i < |v| => v[i] + w[i])
  }

  function Minus(v: seq<real>, w: seq<real>): (r: seq<real>)
    requires |v| == |w|
  {
    seq(|v|, i requires 0 <= i < |v| => v[i] - w[i])
  }

  /** The dot product, accumulated from the first index to the last. */
  function DotProduct(v: seq<real>, w: seq<real>): real
    requires |v| == |w|
  {
    if |v| == 0 then 0.0 else DotProduct(v[..|v| - 1], w[..|w| - 1]) + v[|v| - 1] * w[|w| - 1]
  }

  /** The sum of the squared components, accumulated from the first to the last. */
  function SumOfSquares(v: seq<real>): real
  {
    if |v| == 0 then 0.0 else SumOfSquares(v[..|v| - 1]) + v[|v| - 1] * v[|v| - 1]
  }

  function EuclideanNorm(m: MathLib, v: seq<real>): real
  {
    m.sqrt(SumOfSquares(v))
  }

  /** Over the reals, adding w and then subtracting it gives back v. */
  lemma PlusMinusCancel(v: seq<real>, w: seq<real>)
    requires |v| == |w|
    ensures Minus(Plus(v, w), w) == v
  {
    assert forall i :: 0 <= i < |v| ==> Minus(Plus(v, w), w)[i] == v[i];
  }

  /** Binary minus is addition of the vector scaled by -1 (unary minus). */
  lemma MinusIsPlusNegated(v: seq<real>, w: seq<real>)
    requires |v| == |w|
    ensures Minus(v, w) == Plus(v, Scaled(-1.0, w))
  {
    assert forall i :: 0 <= i < |v| ==> Minus(v, w)[i] == Plus(v, Scaled(-1.0, w))[i];
  }

  lemma {:induction false} DotProductSymmetric(v: seq<real>, w: seq<real>)
    requires |v| == |w|
    ensures DotProduct(v, w) == DotProduct(w, v)
  {
    if |v| != 0 {
      DotProductSymmetric(v[..|v| - 1], w[..|w| - 1]);
    }
  }

  lemma {:induction false} DotProductSelf(v: seq<real>)
    ensures DotProduct(v, v) == SumOfSquares(v)
  {
    if |v| != 0 {
      DotProductSelf(v[..|v| - 1]);
    }
  }

  lemma {:induction false} SumOfSquaresNonNegative(v: seq<real>)
    ensures 0.0 <= SumOfSquares(v)
  {
    if |v| != 0 {
      SumOfSquaresNonNegative(v[..|v| - 1]);
      assert 0.0 <= v[|v| - 1] * v[|v| - 1];
    }
  }

  /** The norm is non-negative and its square is the sum of the squared components. */
  lemma NormProperties(m: MathLib, v: seq<real>)
    requires SqrtLaw(m)
    ensures 0.0 <= EuclideanNorm(m, v)
    ensures EuclideanNorm(m, v) * EuclideanNorm(m, v) == SumOfSquares(v)
  {
    SumOfSquaresNonNegative(v);
  }

  class Vector {
    var n: int
    var x: array<real>

    /** `n` starts as a length and the `Dim` setter only accepts positive values; it
        can however drift away from `x.Length`, which the operators then expose. */
    ghost predicate Valid()
      reads this
    {
      0 <= n
    }

    /** `Vector(params double[] x)`: shares the caller's array. */
    constructor (x: array<real>)
      ensures Valid() && this.x == x && n == x.Length
    {
      this.x := x;
      this.n := x.Length;
    }

    /** `Vector(Vector v)`: the whole data array is cloned, the dimension copied. */
    constructor Copy(v: Vector)
      requires v.Valid()
      ensures Valid() && fresh(x) && x[..] == v.x[..] && n == v.n
    {
      var data := new real[v.x.Length](i requires 0 <= i < v.x.Length reads v, v.x => v.x[i]);
      this.x := data;
      this.n := v.n;
    }

    /** `Vector(int n)`: n zeros. */
    constructor Zeros(n: int)
      requires 0 <= n
      ensures Valid() && fresh(x) && x[..] == seq(n, _ => 0.0) && this.n == n
    {
      var data := new real[n];
      ArrayExtensions.Fill(data, 0.0);
      this.n := n;
      this.x := data;
    }

    /** The square root of the sum of the squares of every element of the data
        array (all of it, whatever `Dim` says). */
    method Norm(m: MathLib) returns (r: real)
      ensures r == EuclideanNorm(m, x[..])
    {
      var temp := 0.0;
      for i := 0 to x.Length
        invariant temp == SumOfSquares(x[..i])
      {
        assert x[..i + 1][..i] == x[..i];
        temp := temp + x[i] * x[i];
      }
      assert x[..x.Length] == x[..];
      r := m.sqrt(temp);
    }

    /** The `Dim` setter ignores values that are not positive. */
    method SetDim(value: int)
      requires Valid()
      modifies this`n
      ensures Valid() && n == (if value > 0 then value else old(n))
    {
      if value > 0 {
        n := value;
      }
    }

    /** The indexer reads the data array. */
    method Get(index: int) returns (r: Result<real>)
      ensures 0 <= index < x.Length ==> r == Ok(x[index])
      ensures !(0 <= index < x.Length) ==> r == Err(IndexOutOfRange)
    {
      if 0 <= index < x.Length {
        return Ok(x[index]);
      }
      return Err(IndexOutOfRange);
    }

    /** `v * w`: dimensions must match; the sum runs over the first `Dim` elements. */
    static method Dot(v: Vector, w: Vector) returns (r: Result<real>)
      requires v.Valid() && w.Valid()
      ensures v.n != w.n ==> r == Err(NonMatchingDimensions)
      ensures v.n == w.n && (v.x.Length < v.n || w.x.Length < w.n) ==> r == Err(IndexOutOfRange)
      ensures v.n == w.n && v.n <= v.x.Length && w.n <= w.x.Length ==>
                r == Ok(DotProduct(v.x[..v.n], w.x[..w.n]))
    {
      if v.n != w.n {
        return Err(NonMatchingDimensions);
      }
      var n := v.n;
      var result := 0.0;
      for i := 0 to n
        invariant i <= v.x.Length && i <= w.x.Length
        invariant result == DotProduct(v.x[..i], w.x[..i])
      {
        if v.x.Length <= i || w.x.Length <= i {
          return Err(IndexOutOfRange);
        }
        assert v.x[..i + 1][..i] == v.x[..i] && w.x[..i + 1][..i] == w.x[..i];
        result := result + v.x[i] * w.x[i];
      }
      return Ok(result);
    }

    /** `c * v`: a new vector of dimension `v.Dim`. */
    static method Scale(c: real, v: Vector) returns (r: Result<Vector>)
      requires v.Valid()
      ensures v.x.Length < v.n ==> r == Err(IndexOutOfRange)
      ensures v.n <= v.x.Length ==> r.Ok? && fresh(r.value) && fresh(r.value.x) && r.value.Valid()
                                    && r.value.n == v.n && r.value.x[..] == Scaled(c, v.x[..v.n])
    {
      var n := v.n;
      var temp := new real[n];
      for i := 0 to n
        invariant i <= v.x.Length
        invariant forall k :: 0 <= k < i ==> temp[k] == c * v.x[k]
      {
        if v.x.Length <= i {
          return Err(IndexOutOfRange);
        }
        temp[i] := c * v.x[i];
      }
      assert forall k :: 0 <= k < n ==> temp[..][k] == Scaled(c, v.x[..n])[k];
      var result := new Vector(temp);
      return Ok(result);
    }

    /** `v + w`: dimensions must match; a new vector of the same dimension. */
    static method Add(v: Vector, w: Vector) returns (r: Result<Vector>)
      requires v.Valid() && w.Valid()
      ensures v.n != w.n ==> r == Err(NonMatchingDimensions)
      ensures v.n == w.n && (v.x.Length < v.n || w.x.Length < w.n) ==> r == Err(IndexOutOfRange)
      ensures v.n == w.n && v.n <= v.x.Length && w.n <= w.x.Length ==>
                r.Ok? && fresh(r.value) && fresh(r.value.x) && r.value.Valid()
                && r.value.n == v.n && r.value.x[..] == Plus(v.x[..v.n], w.x[..w.n])
    {
      if v.n != w.n {
        return Err(NonMatchingDimensions);
      }
      var n := v.n;
      var temp := new real[n];
      for i := 0 to n
        invariant i <= v.x.Length && i <= w.x.Length
        invariant forall k :: 0 <= k < i ==> temp[k] == v.x[k] + w.x[k]
      {
        if v.x.Length <= i || w.x.Length <= i {
          return Err(IndexOutOfRange);
        }
        temp[i] := v.x[i] + w.x[i];
      }
      var result := new Vector(temp);
      return Ok(result);
    }

    /** `-v` is `(-1.0) * v`. */
    static method Negate(v: Vector) returns (r: Result<Vector>)
      requires v.Valid()
      ensures v.x.Length < v.n ==> r == Err(IndexOutOfRange)
      ensures v.n <= v.x.Length ==> r.Ok? && fresh(r.value) && fresh(r.value.x) && r.value.Valid()
                                    && r.value.n == v.n && r.value.x[..] == Scaled(-1.0, v.x[..v.n])
    {
      r := Scale(-1.0, v);
    }

    /** `v - w`: dimensions must match; a new vector of the same dimension. */
    static method Subtract(v: Vector, w: Vector) returns (r: Result<Vector>)
      requires v.Valid() && w.Valid()
      ensures v.n != w.n ==> r == Err(NonMatchingDimensions)
      ensures v.n == w.n && (v.x.Length < v.n || w.x.Length < w.n) ==> r == Err(IndexOutOfRange)
      ensures v.n == w.n && v.n <= v.x.Length && w.n <= w.x.Length ==>
                r.Ok? && fresh(r.value) && fresh(r.value.x) && r.value.Valid()
                && r.value.n == v.n && r.value.x[..] == Minus(v.x[..v.n], w.x[..w.n])
    {
      if v.n != w.n {
        return Err(NonMatchingDimensions);
      }
      var n := v.n;
      var temp := new real[n];
      for i := 0 to n
        invariant i <= v.x.Length && i <= w.x.Length
        invariant forall k :: 0 <= k < i ==> temp[k] == v.x[k] - w.x[k]
      {
        if v.x.Length <= i || w.x.Length <= i {
          return Err(IndexOutOfRange);
        }
        temp[i] := v.x[i] - w.x[i];
      }
      var result := new Vector(temp);
      return Ok(result);
    }
  }
}
