/** A function of an argument array with trailing parameters bound through a
    mutable parameter array. */
module Parametrized {
  import opened Outcomes
  import ArrayExtensions

  class ParametrizedFunction {
    var parameters: array<real>
    var paramsCount: int
    const fn: seq<real> -> real

    /** The parameter count always equals the length of the parameter array. */
    ghost predicate Valid()
      reads this
    {
      paramsCount == parameters.Length
    }

    /** `ParametrizedFunction(function, paramsCount)`: `paramsCount` zero parameters. */
    constructor (fn: seq<real> -> real, paramsCount: int)
      requires 0 <= paramsCount
      ensures Valid() && this.fn == fn && this.paramsCount == paramsCount
      ensures fresh(parameters) && parameters[..] == seq(paramsCount, _ => 0.0)
    {
      this.fn := fn;
      this.paramsCount := paramsCount;
      this.parameters := new real[paramsCount](_ => 0.0);
    }

    /** `ParametrizedFunction(function)`: no parameters. */
    constructor Unbound(fn: seq<real> -> real)
      ensures Valid() && this.fn == fn && paramsCount == 0
      ensures fresh(parameters) && parameters.Length == 0
    {
      this.fn := fn;
      this.paramsCount := 0;
      this.parameters := new real[0];
    }

    /** `ParametrizedFunction(function, parameters)`: goes through the `Parameters` setter. */
    constructor WithParameters(fn: seq<real> -> real, parameters: array?<real>)
      ensures Valid() && this.fn == fn
      ensures parameters != null ==> this.parameters == parameters && paramsCount == parameters.Length
      ensures parameters == null ==> fresh(this.parameters) && paramsCount == 0
    {
      this.fn := fn;
      if parameters == null {
        this.parameters := new real[0];
      } else {
        this.parameters := parameters;
      }
      this.paramsCount := if parameters == null then 0 else parameters.Length;
    }

    /** The `Parameters` setter: a null array becomes an empty one; any other array is
        stored itself (shared with the caller), with its length as the count. */
    method SetParameters(value: array?<real>)
      modifies this
      ensures Valid()
      ensures value != null ==> parameters == value && paramsCount == value.Length
      ensures value == null ==> fresh(parameters) && parameters.Length == 0 && paramsCount == 0
    {
      if value == null {
        parameters := new real[0];
      } else {
        parameters := value;
      }
      paramsCount := if value == null then 0 else value.Length;
    }

    /** Writes one parameter in place; nothing else changes. */
    method SetParameter(idx: int, val: real) returns (o: Outcome)
      requires Valid()
      modifies parameters
      ensures Valid()
      ensures 0 <= idx < parameters.Length ==> o == Pass && parameters[..] == old(parameters[..])[idx := val]
      ensures !(0 <= idx < parameters.Length) ==> o == Fail(IndexOutOfRange) && parameters[..] == old(parameters[..])
    {
      if !(0 <= idx < parameters.Length) {
        return Fail(IndexOutOfRange);
      }
      parameters[idx] := val;
      return Pass;
    }

    /** Calls the function on the arguments followed by the current parameters. */
    method Eval(args: array<real>) returns (r: real)
      ensures r == fn(args[..] + parameters[..])
    {
      var realArgs := ArrayExtensions.Append(args, parameters);
      r := fn(realArgs[..]);
    }
  }
}
