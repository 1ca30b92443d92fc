/** The reactor optimiser: it configures a Runge-Kutta solver for the six reactor
    equations and evaluates the quality criterion at the reactor outlet for a
    trial vector of `X7` parameters, caching one solution per new trial. */
module ReactorOptimization {
  import opened Floats
  import opened Outcomes
  import opened MathTools
  import ArrayExtensions
  import Vectors
  import Parametrized
  import DiffEqu
  import Reactor
  import Differentiation

  /** Two trial vectors closer than this, component by component, are the same trial. */
  const EqualityPrecisionCheck: real := 0.00001

  const NumberOfEquations: int := 6

  /** The initial concentrations: pure feed, no products. */
  const InitialConcentrations: seq<real> := [1.0, 0.0, 0.0, 0.0, 0.0, 0.0]

  /** The state at the last solution column of an `n`-point run over [a, b] from
      the initial concentrations, for the right-hand sides `fs`. */
  function Outlet(fs: seq<DiffEqu.RightHandSide>, a: real, b: real, n: nat): (y: seq<real>)
    requires 1 <= n && (n == 1 || NumberOfEquations <= |fs|)
    ensures |y| == NumberOfEquations
  {
    DiffEqu.Column(fs, LinspacePoints(a, b, n), Div(b - a, n as real), InitialConcentrations, n - 1)
  }

  /** The outlet state with the right-hand sides bound to the `X7` parameters `params`. */
  function OutletState(m: MathLib, params: seq<real>, a: real, b: real, n: nat): (y: seq<real>)
    requires 1 <= n
    ensures |y| == NumberOfEquations
  {
    Outlet(Reactor.ReactorFunctions(m, params), a, b, n)
  }

  /** `solver.Solve()` on the reactor configuration: the outcome is the solver's,
      and on success the last solution column is the outlet state. */
  method SolveOutlet(solver: DiffEqu.RungeKuttaSolver) returns (o: Outcome)
    requires solver.systemDim == NumberOfEquations
    requires solver.initialConditions != null && solver.initialConditions[..] == InitialConcentrations
    modifies solver`grid, solver`h, solver`s
    ensures var e := DiffEqu.RungeKuttaSolver.SolveError(solver.gridSize, solver.systemDim, solver.initialConditions, |solver.functions|);
            o == (if e.Some? then Fail(e.value) else Pass)
    ensures o.Pass? ==> && solver.s != null && fresh(solver.s)
                        && 1 <= solver.gridSize == solver.s.Length1 && solver.s.Length0 == NumberOfEquations
                        && (solver.gridSize == 1 || NumberOfEquations <= |solver.functions|)
                        && DiffEqu.MatrixColumn(solver.s, solver.gridSize - 1)
                           == Outlet(solver.functions, solver.a, solver.b, solver.gridSize)
  {
    o := solver.Solve();
    if o.Pass? {
      assert 1 <= solver.gridSize && solver.InitialState() == InitialConcentrations;
      assert DiffEqu.MatrixColumn(solver.s, solver.gridSize - 1)
          == DiffEqu.Column(solver.functions, solver.grid[..], solver.h, solver.InitialState(), solver.gridSize - 1);
    }
  }

  /** `QualityCriteria` of a last column that may not have been produced. */
  function Criterion(m: MathLib, params: seq<real>, column: Result<seq<real>>): (r: Result<real>)
    ensures column.Err? ==> r == Err(column.error)
  {
    match column
    case Err(e) => Err(e)
    case Ok(c) => Reactor.QualityCriteriaOf(m, params, c)
  }

  /** What the objective returns for a new trial: the quality criterion of the
      outlet state, read at position `b`. */
  function TrialValue(m: MathLib, params: seq<real>, a: real, b: real, n: nat): (r: Result<real>)
    requires 1 <= n
    ensures r.Ok? <==> 2 <= |params|
  {
    Reactor.QualityCriteriaOf(m, params, [b] + OutletState(m, params, a, b, n))
  }

  /** The criterion of a produced last column `[b] + outlet state` is the trial value. */
  lemma CriterionOfOutlet(m: MathLib, params: seq<real>, a: real, b: real, n: nat, column: Result<seq<real>>)
    requires 1 <= n && column == Ok([b] + OutletState(m, params, a, b, n))
    ensures Criterion(m, params, column) == TrialValue(m, params, a, b, n)
  {
  }

  /** With valid parameters and non-negative outlet concentrations of positive
      total mass, the objective of a new trial lies in [0, 14]. */
  lemma TrialValueBounds(m: MathLib, params: seq<real>, a: real, b: real, n: nat)
    requires 1 <= n && 2 <= |params|
    requires forall i :: 0 <= i < NumberOfEquations ==> 0.0 <= OutletState(m, params, a, b, n)[i]
    requires 0.0 < Reactor.WeightedSum(Reactor.Unpack(m, params, [b] + OutletState(m, params, a, b, n)).value, 6)
    ensures 0.0 <= TrialValue(m, params, a, b, n).value <= 14.0
  {
    var args := [b] + OutletState(m, params, a, b, n);
    var X := Reactor.Unpack(m, params, args).value;
    assert X.x(1).value == args[1] && X.x(2).value == args[2] && X.x(3).value == args[3];
    assert X.x(4).value == args[4] && X.x(5).value == args[5] && X.x(6).value == args[6];
    Reactor.QualityBounds(X);
  }

  /** `new double[] {1.0, 0.0, 0.0, 0.0, 0.0, 0.0}`. */
  method PrepareInitialConditions() returns (c: array<real>)
    ensures fresh(c) && c[..] == InitialConcentrations
  {
    c := new real[6];
    c[0], c[1], c[2], c[3], c[4], c[5] := 1.0, 0.0, 0.0, 0.0, 0.0, 0.0;
  }

  /** No recorded trial vector is within tolerance of the one recorded before it. */
  predicate NoRepeats(trials: seq<seq<real>>)
    decreases |trials|
  {
    |trials| <= 1 ||
    (&& NoRepeats(trials[..|trials| - 1])
     && !ArrayExtensions.WithinTolerance(trials[|trials| - 2], trials[|trials| - 1], EqualityPrecisionCheck))
  }

  /** Recording a vector that is not within tolerance of the last one keeps the
      history free of consecutive repeats. */
  lemma RecordKeepsNoRepeats(trials: seq<seq<real>>, args: seq<real>)
    requires NoRepeats(trials)
    requires |trials| == 0 || !ArrayExtensions.WithinTolerance(args, trials[|trials| - 1], EqualityPrecisionCheck)
    ensures NoRepeats(trials + [args])
  {
    var next := trials + [args];
    assert next[..|next| - 1] == trials;
    if |trials| != 0 {
      ArrayExtensions.WithinToleranceSymmetric(args, trials[|trials| - 1], EqualityPrecisionCheck);
    }
  }

  /** The repeat tolerance equals the differentiation step, so which gradient probes
      count as new trials depends on what was recorded. With a copy recorded, the
      plus-probe of coordinate 1 is within tolerance of the recorded minus-probe of
      coordinate 0, a repeat. The aliased array holds the minus-probe of coordinate 1
      by then, 2e away, so as written the same probe is new. After the last
      coordinate the point itself is within tolerance of the last probe recorded
      (a copy) and of the restored array (as written): a repeat either way. */
  lemma {:induction false} ProbeRepeats(x: seq<real>)
    requires 2 <= |x|
    ensures EqualityPrecisionCheck == Reactor.DiffPrecision
    ensures var e := Reactor.DiffPrecision;
      ArrayExtensions.WithinTolerance(Differentiation.PlusProbe(x, 1, e), Differentiation.MinusProbe(x, 0, e), EqualityPrecisionCheck)
    ensures var e := Reactor.DiffPrecision;
      !ArrayExtensions.WithinTolerance(Differentiation.PlusProbe(x, 1, e), Differentiation.MinusProbe(x, 1, e), EqualityPrecisionCheck)
    ensures var e := Reactor.DiffPrecision;
      && ArrayExtensions.WithinTolerance(x, Differentiation.MinusProbe(x, |x| - 1, e), EqualityPrecisionCheck)
      && ArrayExtensions.WithinTolerance(x, x, EqualityPrecisionCheck)
  {
    var e := Reactor.DiffPrecision;
    var up1, down0, down1 := Differentiation.PlusProbe(x, 1, e), Differentiation.MinusProbe(x, 0, e), Differentiation.MinusProbe(x, 1, e);
    assert ArrayExtensions.WithinTolerance(up1, down0, e) by {
      forall i | 0 <= i < |x| ensures ArrayExtensions.Close(up1[i], down0[i], e) {
        assert i == 0 || i == 1 || up1[i] == down0[i];
      }
    }
    assert !ArrayExtensions.Close(up1[1], down1[1], e);
    ArrayExtensions.WithinToleranceReflexive(x, e);
    var last := Differentiation.MinusProbe(x, |x| - 1, e);
    assert ArrayExtensions.WithinTolerance(x, last, e) by {
      forall i | 0 <= i < |x| ensures ArrayExtensions.Close(x[i], last[i], e) {
        assert i == |x| - 1 || x[i] == last[i];
      }
    }
  }

  class ReactorOptimizer {
    /** Math.Exp and Math.Pow. */
    const math: MathLib
    /** The shared `ReactorCommons.X7` object, whose parameters the objective sets. */
    const x7: Parametrized.ParametrizedFunction

    var numberOfSamples: int
    var maxNumberOfSteps: int
    var minDist: Option<real>
    var maxDist: Option<real>
    var optPrecision: real
    var diffPrecision: real
    var gradOptPrecision: real
    var gradOptMin: real
    var gradOptMax: real
    var minParamValues: Vectors.Vector?
    var maxParamValues: Vectors.Vector?
    var solver: DiffEqu.RungeKuttaSolver?
    var approximations: seq<array2<real>>
    var x7Params: seq<array<real>>
    var qualityCriteriaValues: seq<real>
    var initialX7Parameters: Vectors.Vector?

    /** `ReactorOptimizer(numberOfSamples)`: empty histories, no distances, no
        solver and no parameter bounds yet. */
    constructor (numberOfSamples: int, math: MathLib, x7: Parametrized.ParametrizedFunction)
      ensures this.numberOfSamples == numberOfSamples && this.math == math && this.x7 == x7
      ensures minDist == None && maxDist == None
      ensures approximations == [] && x7Params == [] && qualityCriteriaValues == []
      ensures solver == null && minParamValues == null && maxParamValues == null && initialX7Parameters == null
    {
      this.math := math;
      this.x7 := x7;
      this.numberOfSamples := numberOfSamples;
      minDist, maxDist := None, None;
      approximations, x7Params, qualityCriteriaValues := [], [], [];
      solver := null;
      minParamValues, maxParamValues, initialX7Parameters := null, null, null;
    }

    /** The `MinDist` getter reads a nullable value: unset, it throws. */
    function MinDist(): (r: Result<real>)
      reads this
      ensures minDist.None? ==> r == Err(InvalidOperation)
      ensures minDist.Some? ==> r == Ok(minDist.value)
    {
      if minDist.None? then Err(InvalidOperation) else Ok(minDist.value)
    }

    function MaxDist(): (r: Result<real>)
      reads this
      ensures maxDist.None? ==> r == Err(InvalidOperation)
      ensures maxDist.Some? ==> r == Ok(maxDist.value)
    {
      if maxDist.None? then Err(InvalidOperation) else Ok(maxDist.value)
    }

    method SetMinDist(value: real)
      modifies this`minDist
      ensures minDist == Some(value)
    {
      minDist := Some(value);
    }

    method SetMaxDist(value: real)
      modifies this`maxDist
      ensures maxDist == Some(value)
    {
      maxDist := Some(value);
    }

    /** The `InitialX7Parameters` setter stores a copy of the vector; a null vector
        fails when its data is read. */
    method SetInitialX7Parameters(value: Vectors.Vector?) returns (o: Outcome)
      requires value != null ==> value.Valid()
      modifies this`initialX7Parameters
      ensures value == null ==> o == Fail(NullReference) && initialX7Parameters == old(initialX7Parameters)
      ensures value != null ==> o == Pass && initialX7Parameters != null && fresh(initialX7Parameters)
                                && fresh(initialX7Parameters.x) && initialX7Parameters.Valid()
                                && initialX7Parameters.x[..] == value.x[..] && initialX7Parameters.n == value.n
    {
      if value == null {
        return Fail(NullReference);
      }
      initialX7Parameters := new Vectors.Vector.Copy(value);
      return Pass;
    }

    /** The initial, minimal and maximal parameter vectors must all be set. */
    method CheckPreConditions() returns (o: Outcome)
      ensures o.Fail? <==> initialX7Parameters == null || minParamValues == null || maxParamValues == null
      ensures o.Fail? ==> o.error == InvalidOperation
    {
      if initialX7Parameters == null {
        return Fail(InvalidOperation);
      }
      if minParamValues == null {
        return Fail(InvalidOperation);
      }
      if maxParamValues == null {
        return Fail(InvalidOperation);
      }
      return Pass;
    }

    /** The solver is configured for the reactor, and the histories may be
        extended by the objective. */
    ghost predicate Ready()
      reads this, x7, solver, if solver == null then null else solver.initialConditions
    {
      && solver != null && x7.Valid()
      && minDist.Some? && maxDist.Some?
      && solver.a == minDist.value && solver.b == maxDist.value
      && solver.systemDim == NumberOfEquations && |solver.functions| == NumberOfEquations
      && solver.initialConditions != null && solver.initialConditions[..] == InitialConcentrations
    }

    /** A new solver over [MinDist, MaxDist] (0 and 180 when unset) with
        `NumberOfSamples` points, the reactor's six equations bound to the current
        `X7` parameters, the initial concentrations, and dimension 6. */
    method InitializeSolver()
      requires x7.Valid()
      modifies this`solver, this`minDist, this`maxDist
      ensures Ready() && fresh(solver) && fresh(solver.initialConditions)
      ensures minDist == Some(if old(minDist).None? then Reactor.MinDist else old(minDist).value)
      ensures maxDist == Some(if old(maxDist).None? then Reactor.MaxDist else old(maxDist).value)
      ensures solver.gridSize == numberOfSamples && solver.s == null
      ensures solver.functions == Reactor.ReactorFunctions(math, x7.parameters[..])
    {
      solver := new DiffEqu.RungeKuttaSolver();
      var functions := Reactor.ReactorFunctions(math, x7.parameters[..]);
      var initialConditions := PrepareInitialConditions();
      if minDist.None? {
        minDist := Some(Reactor.MinDist);
      }
      if maxDist.None? {
        maxDist := Some(Reactor.MaxDist);
      }
      var s1 := solver.SetGridSize(numberOfSamples);
      var s2 := s1.SetFunctions(functions);
      var s3 := s2.SetInitialConditions(initialConditions);
      var s4 := s3.SetGridRange(minDist.value, maxDist.value);
      var s5 := s4.SetDim(NumberOfEquations);
    }

    /** `Optimize`, up to the search: the preconditions are checked before anything
        changes, then the solver is initialised. */
    method Optimize() returns (o: Outcome)
      requires x7.Valid()
      modifies this`solver, this`minDist, this`maxDist
      ensures o.Fail? <==> initialX7Parameters == null || minParamValues == null || maxParamValues == null
      ensures o.Fail? ==> o.error == InvalidOperation && solver == old(solver)
                          && minDist == old(minDist) && maxDist == old(maxDist)
      ensures o.Pass? ==> Ready() && fresh(solver) && solver.gridSize == numberOfSamples
                          && solver.functions == Reactor.ReactorFunctions(math, x7.parameters[..])
    {
      o := CheckPreConditions();
      if o.Fail? {
        return;
      }
      InitializeSolver();
    }

    /** The values `GetSolutionLastColumn` produces: `MaxDist` followed by the last
        entry of every solution row. */
    ghost function SolutionLastColumn(): Result<seq<real>>
      reads this`solver, this`maxDist, solver, if solver == null then null else solver.s
    {
      if solver == null then Err(NullReference)
      else if solver.s == null then Err(InvalidOperation)
      else if maxDist.None? then Err(InvalidOperation)
      else if solver.s.Length0 == 0 then Ok([maxDist.value])
      else if solver.s.Length1 == 0 then Err(InvalidOperation)
      else Ok([maxDist.value] + DiffEqu.MatrixColumn(solver.s, solver.s.Length1 - 1))
    }

    /** A new array of Dim + 1 values: `MaxDist`, then the last entry of each row.
        The solution getter, the nullable `MaxDist` and `Last()` of an empty row
        each throw InvalidOperationException. */
    method GetSolutionLastColumn() returns (r: Result<array<real>>)
      ensures r.Err? ==> SolutionLastColumn() == Err(r.error)
      ensures r.Ok? ==> fresh(r.value) && SolutionLastColumn() == Ok(r.value[..])
    {
      if solver == null {
        return Err(NullReference);
      }
      var current := solver.Solution();
      if current.Err? {
        return Err(current.error);
      }
      var s := current.value;
      var finalValues := new real[s.Length0 + 1];
      if maxDist.None? {
        return Err(InvalidOperation);
      }
      finalValues[0] := maxDist.value;
      for i := 1 to finalValues.Length
        invariant finalValues[0] == maxDist.value
        invariant 1 < i ==> 0 < s.Length1
        invariant forall k :: 1 <= k < i ==> finalValues[k] == s[k - 1, s.Length1 - 1]
      {
        if s.Length1 == 0 {
          return Err(InvalidOperation);
        }
        finalValues[i] := s[i - 1, s.Length1 - 1];
      }
      assert solver.s == s;
      if s.Length0 != 0 {
        assert finalValues[..] == [maxDist.value] + DiffEqu.MatrixColumn(s, s.Length1 - 1);
      } else {
        assert finalValues[..] == [maxDist.value];
      }
      return Ok(finalValues);
    }

    /** The last trial vector recorded, if any. */
    ghost function LastTrial(): array?<real>
      reads this`x7Params
    {
      if |x7Params| == 0 then null else x7Params[|x7Params| - 1]
    }

    /** The contents of the recorded trial vectors, oldest first. */
    ghost function Trials(): seq<seq<real>>
      reads this`x7Params, x7Params
    {
      var trials := x7Params;
      seq(|trials|, k requires 0 <= k < |trials| reads trials => trials[k][..])
    }

    /** `!args.EqualsElementwiseWithPrecision(x7Params.LastOrDefault(), 1e-5)`: the
        first trial is new, and so is one that differs from the last recorded
        vector in length or in some component by more than 1e-5. */
    ghost predicate IsNewTrial(args: seq<real>)
      reads this`x7Params, LastTrial()
    {
      LastTrial() == null || !ArrayExtensions.WithinTolerance(args, LastTrial()[..], EqualityPrecisionCheck)
    }

    /** The error a new trial ends with before anything is recorded: the solver's
        own, or the right-hand sides failing on fewer than two `X7` parameters as
        soon as a step is taken. */
    ghost function TrialError(paramCount: int): Option<Error>
      reads this, solver
      requires solver != null
    {
      var e := DiffEqu.RungeKuttaSolver.SolveError(solver.gridSize, solver.systemDim, solver.initialConditions, |solver.functions|);
      if e.Some? then e
      else if 2 <= solver.gridSize && paramCount < 2 then Some(IndexOutOfRange)
      else None
    }

    /** Solves the reactor equations with the right-hand sides bound to the current
        `X7` parameters. */
    method RunTrial() returns (o: Outcome)
      requires Ready()
      modifies solver`functions, solver`grid, solver`h, solver`s
      ensures Ready()
      ensures solver.functions == Reactor.ReactorFunctions(math, x7.parameters[..])
      ensures var e := TrialError(x7.parameters.Length); o == (if e.Some? then Fail(e.value) else Pass)
      ensures o.Pass? ==> && solver.s != null && fresh(solver.s)
                          && 1 <= solver.gridSize == solver.s.Length1 && solver.s.Length0 == NumberOfEquations
                          && DiffEqu.MatrixColumn(solver.s, solver.gridSize - 1)
                             == OutletState(math, x7.parameters[..], minDist.value, maxDist.value, solver.gridSize)
    {
      ghost var params, a, b := x7.parameters[..], solver.a, solver.b;
      var self := solver.SetFunctions(Reactor.ReactorFunctions(math, x7.parameters[..]));
      o := SolveOutlet(solver);
      assert x7.parameters[..] == params && a == minDist.value && b == maxDist.value;
      if o.Pass? {
        assert Outlet(solver.functions, solver.a, solver.b, solver.gridSize)
            == OutletState(math, params, a, b, solver.gridSize);
        assert DiffEqu.MatrixColumn(solver.s, solver.gridSize - 1)
            == OutletState(math, x7.parameters[..], minDist.value, maxDist.value, solver.gridSize);
      }
      if o.Pass? && 2 <= solver.gridSize && x7.parameters.Length < 2 {
        o := Fail(IndexOutOfRange);
      }
    }

    /** The new-trial branch of the objective as the source writes it: solve, then
        record the solution and the trial vector itself, the caller's array. */
    method RecordTrialAsWritten(args: array<real>) returns (o: Outcome)
      requires Ready() && x7.parameters == args
      modifies this`approximations, this`x7Params, solver`functions, solver`grid, solver`h, solver`s
      ensures Ready() && x7.parameters == args
      ensures solver.functions == Reactor.ReactorFunctions(math, args[..])
      ensures var e := TrialError(args.Length); o == (if e.Some? then Fail(e.value) else Pass)
      ensures o.Fail? ==> approximations == old(approximations) && x7Params == old(x7Params)
      ensures o.Pass? ==> && solver.s != null && fresh(solver.s)
                          && approximations == old(approximations) + [solver.s] && x7Params == old(x7Params) + [args]
    {
      o := RunTrial();
      if o.Fail? {
        return;
      }
      var solution := solver.Solution();
      approximations := approximations + [solution.value];
      x7Params := x7Params + [args];
    }

    /** The new-trial branch of the objective: solve, then record the solution and
        a copy of the trial vector, so that the k-th recorded vector stays the one
        the k-th solution was computed for. */
    method RecordTrial(args: array<real>, ghost isNew: bool) returns (o: Outcome)
      requires Ready() && x7.parameters == args && (isNew ==> IsNewTrial(args[..]))
      modifies this`approximations, this`x7Params, solver`functions, solver`grid, solver`h, solver`s
      ensures Ready() && x7.parameters == args
      ensures solver.functions == Reactor.ReactorFunctions(math, args[..])
      ensures var e := TrialError(args.Length); o == (if e.Some? then Fail(e.value) else Pass)
      ensures o.Fail? ==> approximations == old(approximations) && x7Params == old(x7Params)
      ensures o.Pass? ==> Trials() == old(Trials()) + [args[..]]
      ensures isNew && NoRepeats(old(Trials())) ==> NoRepeats(Trials())
      ensures o.Pass? ==> && solver.s != null && fresh(solver.s) && 1 <= solver.gridSize
                          && approximations == old(approximations) + [solver.s]
                          && |x7Params| == |old(x7Params)| + 1 && x7Params[..|old(x7Params)|] == old(x7Params)
                          && fresh(LastTrial()) && LastTrial()[..] == args[..]
                          && SolutionLastColumn()
                             == Ok([maxDist.value] + OutletState(math, args[..], minDist.value, maxDist.value, solver.gridSize))
    {
      o := RunTrial();
      if o.Fail? {
        return;
      }
      LastColumnIs(OutletState(math, args[..], minDist.value, maxDist.value, solver.gridSize));
      RecordCopy(args, isNew);
    }

    /** Appends the solution matrix and a copy of the trial vector to the histories. */
    method RecordCopy(args: array<real>, ghost isNew: bool)
      requires solver != null && solver.s != null && (isNew ==> IsNewTrial(args[..]))
      modifies this`approximations, this`x7Params
      ensures approximations == old(approximations) + [solver.s]
      ensures |x7Params| == |old(x7Params)| + 1 && x7Params[..|old(x7Params)|] == old(x7Params)
      ensures fresh(LastTrial()) && LastTrial()[..] == args[..]
      ensures Trials() == old(Trials()) + [args[..]]
      ensures isNew && NoRepeats(old(Trials())) ==> NoRepeats(Trials())
    {
      ghost var before := Trials();
      assert |before| == 0 || before[|before| - 1] == LastTrial()[..];
      var solution := solver.Solution();
      approximations := approximations + [solution.value];
      var recorded := new real[args.Length](i requires 0 <= i < args.Length reads args => args[i]);
      x7Params := x7Params + [recorded];
      assert recorded[..] == args[..];
      assert Trials() == before + [args[..]];
      if isNew && NoRepeats(before) {
        RecordKeepsNoRepeats(before, args[..]);
      }
    }

    /** One coordinate of a central-difference gradient, as the gradient routine
        does it, against the objective as written: the probe is recorded, then the
        routine puts the coordinate back in the same array. The history entry then
        no longer holds the vector its solution was computed for. */
    method ProbeAsWritten(probe: array<real>, i: int, restored: real) returns (o: Outcome)
      requires Ready() && x7.parameters == probe && 0 <= i < probe.Length && restored != probe[i]
      modifies this`approximations, this`x7Params, solver`functions, solver`grid, solver`h, solver`s, probe
      ensures o.Pass? ==> && solver.functions == Reactor.ReactorFunctions(math, old(probe[..]))
                          && approximations == old(approximations) + [solver.s]
                          && LastTrial() != null && LastTrial()[..] == old(probe[..])[i := restored]
                          && LastTrial()[..] != old(probe[..])
    {
      o := RecordTrialAsWritten(probe);
      probe[i] := restored;
      if o.Pass? {
        assert LastTrial()[..][i] != old(probe[..])[i];
      }
    }

    /** The same gradient coordinate against the objective that records a copy:
        the history entry still holds the probe its solution was computed for. */
    method Probe(probe: array<real>, i: int, restored: real) returns (o: Outcome)
      requires Ready() && x7.parameters == probe && 0 <= i < probe.Length
      modifies this`approximations, this`x7Params, solver`functions, solver`grid, solver`h, solver`s, probe
      ensures o.Pass? ==> && solver.functions == Reactor.ReactorFunctions(math, old(probe[..]))
                          && approximations == old(approximations) + [solver.s]
                          && LastTrial() != null && LastTrial()[..] == old(probe[..])
    {
      o := RecordTrial(probe, false);
      ghost var last := LastTrial();
      probe[i] := restored;
      assert o.Pass? ==> last != probe && last[..] == old(probe[..]);
    }

    lemma LastColumnIs(col: seq<real>)
      requires solver != null && solver.s != null && maxDist.Some?
      requires 1 <= solver.gridSize == solver.s.Length1 && solver.s.Length0 == NumberOfEquations
      requires DiffEqu.MatrixColumn(solver.s, solver.gridSize - 1) == col
      ensures SolutionLastColumn() == Ok([maxDist.value] + col)
    {
    }

    /** A new trial: solve and record it (a copy of `args`, the corrected
        recording), read the last column, evaluate the criterion and record its
        value. Any failure ends the trial where the source would throw, keeping
        what was recorded until then. */
    method NewTrial(args: array<real>) returns (r: Result<real>)
      requires Ready() && x7.parameters == args && IsNewTrial(args[..])
      modifies this`approximations, this`x7Params, this`qualityCriteriaValues
      modifies solver`functions, solver`grid, solver`h, solver`s
      ensures Ready() && x7.parameters == args
      ensures TrialError(args.Length).Some? ==>
                && r == Err(TrialError(args.Length).value)
                && approximations == old(approximations) && x7Params == old(x7Params)
                && qualityCriteriaValues == old(qualityCriteriaValues)
      ensures TrialError(args.Length).None? ==>
                && solver.s != null && fresh(solver.s) && 1 <= solver.gridSize
                && approximations == old(approximations) + [solver.s]
                && |x7Params| == |old(x7Params)| + 1 && x7Params[..|old(x7Params)|] == old(x7Params)
                && fresh(LastTrial()) && LastTrial()[..] == args[..]
                && r == TrialValue(math, args[..], minDist.value, maxDist.value, solver.gridSize)
                && qualityCriteriaValues == old(qualityCriteriaValues) + (if r.Ok? then [r.value] else [])
      ensures NoRepeats(old(Trials())) ==> NoRepeats(Trials())
    {
      var o := RecordTrial(args, true);
      if o.Fail? {
        return Err(o.error);
      }
      r := ScoreTrial(args);
    }

    /** The criterion of a trial just solved, appended to the history of values
        when there is one. */
    method ScoreTrial(args: array<real>) returns (r: Result<real>)
      requires Ready() && x7.parameters == args && 1 <= solver.gridSize
      requires SolutionLastColumn()
               == Ok([maxDist.value] + OutletState(math, args[..], minDist.value, maxDist.value, solver.gridSize))
      modifies this`qualityCriteriaValues
      ensures r == TrialValue(math, args[..], minDist.value, maxDist.value, solver.gridSize)
      ensures qualityCriteriaValues == old(qualityCriteriaValues) + (if r.Ok? then [r.value] else [])
    {
      CriterionOfOutlet(math, args[..], minDist.value, maxDist.value, solver.gridSize, SolutionLastColumn());
      r := LastSolutionCriterion(args);
      RecordValue(r);
    }

    /** Appends the criterion value of a trial that produced one. */
    method RecordValue(r: Result<real>)
      modifies this`qualityCriteriaValues
      ensures qualityCriteriaValues == old(qualityCriteriaValues) + (if r.Ok? then [r.value] else [])
    {
      if r.Ok? {
        qualityCriteriaValues := qualityCriteriaValues + [r.value];
      }
    }

    /** The quality criterion of the last column of the cached solution, read at
        `MaxDist`; nothing is recorded. A repeated trial returns only this. */
    method LastSolutionCriterion(args: array<real>) returns (r: Result<real>)
      requires Ready() && x7.parameters == args
      ensures r == Criterion(math, args[..], SolutionLastColumn())
    {
      var finalValues := GetSolutionLastColumn();
      if finalValues.Err? {
        return Err(finalValues.error);
      }
      r := Reactor.QualityCriteria(math, x7.parameters[..], finalValues.value);
    }

    /** The objective `Optimize` hands to the search. It binds `args` to the `X7`
        parameters; a new trial is solved and recorded (as a copy, the corrected
        recording; `RecordTrialAsWritten` is the source's), a repeated one reuses the
        last solution; the result is the quality criterion of the last solution
        column, which a new trial also appends to the history of values. */
    method Objective(args: array<real>) returns (r: Result<real>)
      requires Ready()
      modifies this`approximations, this`x7Params, this`qualityCriteriaValues, x7
      modifies solver`functions, solver`grid, solver`h, solver`s
      ensures Ready() && x7.parameters == args
      ensures !old(IsNewTrial(args[..])) ==>
                && approximations == old(approximations) && x7Params == old(x7Params)
                && qualityCriteriaValues == old(qualityCriteriaValues) && solver.s == old(solver.s)
                && r == Criterion(math, args[..], SolutionLastColumn())
      ensures old(IsNewTrial(args[..])) && TrialError(args.Length).Some? ==>
                && r == Err(TrialError(args.Length).value)
                && approximations == old(approximations) && x7Params == old(x7Params)
                && qualityCriteriaValues == old(qualityCriteriaValues)
      ensures old(IsNewTrial(args[..])) && TrialError(args.Length).None? ==>
                && solver.s != null && fresh(solver.s) && 1 <= solver.gridSize
                && approximations == old(approximations) + [solver.s]
                && |x7Params| == |old(x7Params)| + 1 && x7Params[..|old(x7Params)|] == old(x7Params)
                && fresh(LastTrial()) && LastTrial()[..] == args[..]
                && r == TrialValue(math, args[..], minDist.value, maxDist.value, solver.gridSize)
                && qualityCriteriaValues == old(qualityCriteriaValues) + (if r.Ok? then [r.value] else [])
      ensures old(|approximations| == |x7Params| == |qualityCriteriaValues|) && r.Ok? ==>
                |approximations| == |x7Params| == |qualityCriteriaValues|
      ensures NoRepeats(old(Trials())) ==> NoRepeats(Trials())
    {
      x7.SetParameters(args);
      var last: array?<real> := if |x7Params| == 0 then null else x7Params[|x7Params| - 1];
      var same := ArrayExtensions.EqualsElementwiseWithPrecision(args, last, EqualityPrecisionCheck);
      var areNew := !same;
      assert last == LastTrial();
      assert areNew == old(IsNewTrial(args[..]));
      if areNew {
        r := NewTrial(args);
      } else {
        r := LastSolutionCriterion(args);
      }
    }
  }
}
