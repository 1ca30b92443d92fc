/** Arithmetic of the model: `double` is modelled as `real`.

    The library functions `Math.Exp`, `Math.Pow` and `Math.Sqrt` are left
    uninterpreted: they are the fields of a `MathLib` value that callers pass in.
    Where a property needs a fact about the square root, the caller supplies
    `SqrtLaw`. */
module Floats {

  datatype MathLib = MathLib(exp: real -> real, pow: (real, real) -> real, sqrt: real -> real)

  /** The square root is non-negative and squares back to its argument. */
  ghost predicate SqrtLaw(m: MathLib)
  {
    forall x: real :: 0.0 <= x ==> 0.0 <= m.sqrt(x) && m.sqrt(x) * m.sqrt(x) == x
  }

  /** IEEE division. Dividing by zero yields an infinity or NaN, which the reals of
      this model do not have; `Div` then gives 0.0 as a stand-in, and no property
      in this model rests on that value. */
  function Div(x: real, y: real): (q: real)
    ensures y != 0.0 ==> q * y == x
  {
    if y == 0.0 then 0.0 else x / y
  }

  function Abs(x: real): (r: real)
    ensures 0.0 <= r && (r == x || r == -x)
  {
    if x < 0.0 then -x else x
  }
}

/** The exceptions of the source, as error outcomes. */
module Outcomes {

  datatype Error =
    | ArgumentError             // System.ArgumentException, thrown explicitly
    | ArgumentOutOfRange        // System.ArgumentOutOfRangeException (IList indexer)
    | InvalidOperation          // System.InvalidOperationException
    | NonMatchingDimensions     // OptimalControl.Maths.Exceptions.NonMatchingDimensionsException
    | IndexOutOfRange           // System.IndexOutOfRangeException (array indexer)
    | NullReference             // System.NullReferenceException
    | Overflow                  // System.OverflowException (array of negative size)

  datatype Result<+T> = Ok(value: T) | Err(error: Error)

  datatype Outcome = Pass | Fail(error: Error)

  datatype Option<+T> = None | Some(value: T)
}
