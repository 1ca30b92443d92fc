/** The ODE solver: the configuration of `BasicSolver` and the fixed-step
    Runge-Kutta method of `RungeKuttaSolver`, as one class.

    What the code computes differs from the classical scheme in two ways, and the
    model follows the code:
    - a solution row has `GridSize` entries while the grid has `GridSize + 1`
      points, and the step loop stops at `j < GridSize - 1`, so the last grid
      point is never reached;
    - the state of stage s > 0 is shifted along the k column of stage s itself,
      which is only partly filled when it is read (entries of right-hand sides not
      yet evaluated in that stage are still 0), not along the previous stage's. */
module DiffEqu {
  import opened Floats
  import opened Outcomes
  import opened MathTools
  import ArrayExtensions

  type RightHandSide = seq<real> -> real

  /** The stage nodes. */
  const C: seq<real> := [0.0, 0.5, 0.5, 1.0]

  /** The argument of stage `kIdx`: stage 0 takes the grid time and the state;
      a later stage shifts time by C[kIdx]·h and each state component i by
      C[kIdx]·h·kCol[i], where kCol is that stage's own column. */
  function KParams(kIdx: nat, t: real, h: real, y: seq<real>, kCol: seq<real>): seq<real>
    requires kIdx < 4 && |kCol| == |y|
  {
    if kIdx == 0 then [t] + y
    else [t + C[kIdx] * h] + seq(|y|, i requires 0 <= i < |y| => y[i] + C[kIdx] * h * kCol[i])
  }

  /** The k column of stage `kIdx` once its first `count` entries are computed;
      the others are still 0. Entry i is right-hand side i applied to the stage
      argument built from the column as it stands at that moment. */
  function PartialStage(fs: seq<RightHandSide>, kIdx: nat, t: real, h: real, y: seq<real>, count: nat): (col: seq<real>)
    requires kIdx < 4 && count <= |y| && count <= |fs|
    ensures |col| == |y|
  {
    if count == 0 then seq(|y|, _ => 0.0)
    else
      var prev := PartialStage(fs, kIdx, t, h, y, count - 1);
      prev[count - 1 := fs[count - 1](KParams(kIdx, t, h, y, prev))]
  }

  function Stage(fs: seq<RightHandSide>, kIdx: nat, t: real, h: real, y: seq<real>): seq<real>
    requires kIdx < 4 && |y| <= |fs|
  {
    PartialStage(fs, kIdx, t, h, y, |y|)
  }

  /** y + (h/6)(k0 + 2k1 + 2k2 + k3). */
  function Combine(y: seq<real>, h: real, k0: seq<real>, k1: seq<real>, k2: seq<real>, k3: seq<real>): (next: seq<real>)
    requires |k0| == |k1| == |k2| == |k3| == |y|
    ensures |next| == |y|
  {
    seq(|y|, i requires 0 <= i < |y| => y[i] + (h / 6.0) * (k0[i] + 2.0 * k1[i] + 2.0 * k2[i] + k3[i]))
  }

  /** One step from state y at time t. */
  function RkStep(fs: seq<RightHandSide>, t: real, h: real, y: seq<real>): (next: seq<real>)
    requires |y| <= |fs|
    ensures |next| == |y|
  {
    Combine(y, h, Stage(fs, 0, t, h, y), Stage(fs, 1, t, h, y), Stage(fs, 2, t, h, y), Stage(fs, 3, t, h, y))
  }

  /** Column j of the solution: the initial state, advanced j times along the grid. */
  function Column(fs: seq<RightHandSide>, grid: seq<real>, h: real, y0: seq<real>, j: nat): (col: seq<real>)
    requires j < |grid| && (j == 0 || |y0| <= |fs|)
    ensures |col| == |y0|
  {
    if j == 0 then y0 else RkStep(fs, grid[j - 1], h, Column(fs, grid, h, y0, j - 1))
  }

  /** Entries not yet computed in a stage are 0 when that stage reads them. */
  lemma {:induction false} PartialStageTail(fs: seq<RightHandSide>, kIdx: nat, t: real, h: real, y: seq<real>, count: nat, i: nat)
    requires kIdx < 4 && count <= |y| && count <= |fs| && count <= i < |y|
    ensures PartialStage(fs, kIdx, t, h, y, count)[i] == 0.0
  {
    if count > 0 {
      var prev := PartialStage(fs, kIdx, t, h, y, count - 1);
      PartialStageTail(fs, kIdx, t, h, y, count - 1, i);
      assert PartialStage(fs, kIdx, t, h, y, count)[i] == prev[i];
    }
  }

  /** Computed entries are final: filling further entries does not change them. */
  lemma {:induction false} PartialStageStable(fs: seq<RightHandSide>, kIdx: nat, t: real, h: real, y: seq<real>, count: nat, i: nat)
    requires kIdx < 4 && count <= |y| && count <= |fs| && i < count
    ensures PartialStage(fs, kIdx, t, h, y, count)[i] == PartialStage(fs, kIdx, t, h, y, i + 1)[i]
  {
    if count > i + 1 {
      PartialStageStable(fs, kIdx, t, h, y, count - 1, i);
    }
  }

  /** A stage argument built from an all-zero column is the unshifted state. */
  lemma KParamsOfZeros(kIdx: nat, t: real, h: real, y: seq<real>)
    requires kIdx < 4
    ensures KParams(kIdx, t, h, y, seq(|y|, _ => 0.0)) == [t + C[kIdx] * h] + y
  {
    var zeros: seq<real> := seq(|y|, _ => 0.0);
    if kIdx != 0 {
      var c := C[kIdx] * h;
      var moved := seq(|y|, i requires 0 <= i < |y| => y[i] + C[kIdx] * h * zeros[i]);
      forall i | 0 <= i < |y|
        ensures moved[i] == y[i]
      {
        assert zeros[i] == 0.0;
        assert C[kIdx] * h * zeros[i] == c * 0.0;
      }
      assert moved == y;
      assert KParams(kIdx, t, h, y, zeros) == [t + C[kIdx] * h] + moved;
    }
  }

  /** The first right-hand side is always evaluated at the unshifted state: when it
      runs, its stage's column is still all 0. */
  lemma FirstComponentSeesUnshiftedState(fs: seq<RightHandSide>, kIdx: nat, t: real, h: real, y: seq<real>)
    requires kIdx < 4 && 1 <= |y| <= |fs|
    ensures Stage(fs, kIdx, t, h, y)[0] == fs[0]([t + C[kIdx] * h] + y)
  {
    PartialStageStable(fs, kIdx, t, h, y, |y|, 0);
    KParamsOfZeros(kIdx, t, h, y);
    var zeros := PartialStage(fs, kIdx, t, h, y, 0);
    assert zeros == seq(|y|, _ => 0.0);
    assert PartialStage(fs, kIdx, t, h, y, 1) == zeros[0 := fs[0](KParams(kIdx, t, h, y, zeros))];
  }

  /** For a single equation every stage sees the unshifted state, so a step is
      y + (h/6)(f(t, y) + 4 f(t + h/2, y) + f(t + h, y)). */
  lemma ScalarStep(fs: seq<RightHandSide>, t: real, h: real, y: seq<real>)
    requires |y| == 1 && 1 <= |fs|
    ensures |RkStep(fs, t, h, y)| == 1
    ensures RkStep(fs, t, h, y)[0]
         == y[0] + (h / 6.0) * (fs[0]([t] + y) + 4.0 * fs[0]([t + 0.5 * h] + y) + fs[0]([t + h] + y))
  {
    var f0, fm, f1 := fs[0]([t] + y), fs[0]([t + 0.5 * h] + y), fs[0]([t + h] + y);
    assert C[0] == 0.0 && C[1] == 0.5 && C[2] == 0.5 && C[3] == 1.0;
    FirstComponentSeesUnshiftedState(fs, 0, t, h, y);
    FirstComponentSeesUnshiftedState(fs, 1, t, h, y);
    FirstComponentSeesUnshiftedState(fs, 2, t, h, y);
    FirstComponentSeesUnshiftedState(fs, 3, t, h, y);
    assert [t + C[0] * h] + y == [t] + y;
    assert [t + C[3] * h] + y == [t + h] + y;
    assert C[1] * h == 0.5 * h && C[2] * h == 0.5 * h;
    assert [t + C[1] * h] + y == [t + 0.5 * h] + y;
    assert [t + C[2] * h] + y == [t + 0.5 * h] + y;
    assert fs[0]([t + C[0] * h] + y) == f0;
    assert Stage(fs, 0, t, h, y)[0] == f0 && Stage(fs, 3, t, h, y)[0] == f1;
    assert Stage(fs, 1, t, h, y)[0] == fm && Stage(fs, 2, t, h, y)[0] == fm;
    var next := RkStep(fs, t, h, y);
    assert next[0] == y[0] + (h / 6.0) * (f0 + 2.0 * fm + 2.0 * fm + f1);
    assert f0 + 2.0 * fm + 2.0 * fm + f1 == f0 + 4.0 * fm + f1;
    assert next[0] == y[0] + (h / 6.0) * (f0 + 4.0 * fm + f1);
    assert |next| == 1;
  }

  /** y' = y, y(0) = 1 on [0, 1] with GridSize 2: the single step taken gives 1.5,
      the Euler value, where the classical scheme gives 1.6484375. */
  lemma ExponentialFirstStep()
    ensures Column([(args: seq<real>) => if |args| >= 2 then args[1] else 0.0], LinspacePoints(0.0, 1.0, 2), 0.5, [1.0], 1) == [1.5]
  {
    var fs: seq<RightHandSide> := [(args: seq<real>) => if |args| >= 2 then args[1] else 0.0];
    var grid := LinspacePoints(0.0, 1.0, 2);
    assert grid[0] == 0.0;
    ScalarStep(fs, 0.0, 0.5, [1.0]);
    assert fs[0]([0.0] + [1.0]) == 1.0 && fs[0]([0.25] + [1.0]) == 1.0 && fs[0]([0.5] + [1.0]) == 1.0;
    var next := Column(fs, grid, 0.5, [1.0], 1);
    assert next == RkStep(fs, 0.0, 0.5, [1.0]);
    assert next[0] == 1.5;
  }

  /** Column c of a matrix, as a vector. */
  function MatrixColumn(m: array2<real>, c: nat): (col: seq<real>)
    reads m
    requires c < m.Length1
    ensures |col| == m.Length0
  {
    seq(m.Length0, i requires 0 <= i < m.Length0 reads m => m[i, c])
  }

  class RungeKuttaSolver {
    var grid: array?<real>
    var a: real
    var b: real
    var h: real
    var gridSize: int
    var functions: seq<RightHandSide>
    var s: array2?<real>
    var systemDim: int
    var initialConditions: array?<real>

    /** A fresh solver has no grid, no functions and no solution. */
    constructor ()
      ensures grid == null && functions == [] && s == null
      ensures a == 0.0 && b == 0.0 && h == 0.0 && gridSize == 0 && systemDim == 0 && initialConditions == null
    {
      grid := null;
      functions := [];
      s := null;
      a, b, h := 0.0, 0.0, 0.0;
      gridSize, systemDim := 0, 0;
      initialConditions := null;
    }

    method SetGridRange(a: real, b: real) returns (self: RungeKuttaSolver)
      modifies this`a, this`b
      ensures self == this && this.a == a && this.b == b
    {
      this.a := a;
      this.b := b;
      return this;
    }

    method SetGridSize(n: int) returns (self: RungeKuttaSolver)
      modifies this`gridSize
      ensures self == this && gridSize == n
    {
      gridSize := n;
      return this;
    }

    method SetDim(dim: int) returns (self: RungeKuttaSolver)
      modifies this`systemDim
      ensures self == this && systemDim == dim
    {
      systemDim := dim;
      return this;
    }

    method SetFunctions(functions: seq<RightHandSide>) returns (self: RungeKuttaSolver)
      modifies this`functions
      ensures self == this && this.functions == functions
    {
      this.functions := functions;
      return this;
    }

    method SetInitialConditions(conditions: array?<real>) returns (self: RungeKuttaSolver)
      modifies this`initialConditions
      ensures self == this && initialConditions == conditions
    {
      initialConditions := conditions;
      return this;
    }

    /** The `Solution` getter refuses to answer before a solution exists. */
    method Solution() returns (r: Result<array2<real>>)
      ensures s == null ==> r == Err(InvalidOperation)
      ensures s != null ==> r == Ok(s)
    {
      if s == null {
        return Err(InvalidOperation);
      }
      return Ok(s);
    }

    /** The state column 0 is seeded with: the first `Dim` initial conditions. */
    ghost function InitialState(): seq<real>
      reads this, initialConditions
    {
      if systemDim <= 0 || initialConditions == null then []
      else initialConditions[..ArrayExtensions.Min(systemDim, initialConditions.Length)]
    }

    /** The exception `Solve` ends with, if any, from the configuration alone. */
    static function SolveError(gridSize: int, dim: int, conditions: array?<real>, functionCount: nat): Option<Error>
    {
      if gridSize < -1 then Some(Overflow)                // Linspace: array of negative size
      else if gridSize == -1 then Some(IndexOutOfRange)   // Linspace: writes a into an empty array
      else if dim < 0 then Some(Overflow)                 // solution with a negative number of rows
      else if 0 < dim && conditions == null then Some(NullReference)
      else if 0 < dim && (conditions.Length < dim || gridSize == 0) then Some(IndexOutOfRange)
      else if 2 <= gridSize && functionCount < dim then Some(ArgumentOutOfRange)  // Functions[i] past the list
      else None
    }

    /** Builds the grid and a fresh solution, seeds column 0, then advances column
        by column. On success, column j of the solution is the initial state
        advanced j times by `RkStep`, for every j < GridSize. */
    method Solve() returns (o: Outcome)
      modifies this`grid, this`h, this`s
      ensures var e := SolveError(gridSize, systemDim, initialConditions, |functions|);
              o == (if e.Some? then Fail(e.value) else Pass)
      ensures o.Pass? ==>
                && grid != null && fresh(grid) && grid[..] == LinspacePoints(a, b, gridSize)
                && h == Div(b - a, gridSize as real)
                && s != null && fresh(s) && s.Length0 == systemDim && s.Length1 == gridSize
                && |InitialState()| == systemDim
                && (gridSize <= 1 || systemDim <= |functions|)
                && forall j :: 0 <= j < gridSize ==>
                     MatrixColumn(s, j) == Column(functions, grid[..], h, InitialState(), j)
    {
      o := InitGridAndSolutionMatrix();
      if o.Fail? {
        return;
      }
      o := ExecuteMethod(InitialState());
    }

    method InitGridAndSolutionMatrix() returns (o: Outcome)
      modifies this`grid, this`h, this`s
      ensures var e := SolveError(gridSize, systemDim, initialConditions, |functions|);
              o.Fail? <==> (e.Some? && e.value != ArgumentOutOfRange)
      ensures o.Fail? ==> o == Fail(SolveError(gridSize, systemDim, initialConditions, |functions|).value)
      ensures o.Pass? ==>
                && grid != null && fresh(grid) && grid[..] == LinspacePoints(a, b, gridSize)
                && h == Div(b - a, gridSize as real)
                && s != null && fresh(s) && s.Length0 == systemDim && s.Length1 == gridSize
                && |InitialState()| == systemDim
                && (0 < systemDim ==> 0 < gridSize)
                && (0 < gridSize ==> MatrixColumn(s, 0) == InitialState())
    {
      var g := Linspace(a, b, gridSize);
      if g.Err? {
        return Fail(g.error);
      }
      grid := g.value;
      h := Div(b - a, gridSize as real);
      if systemDim < 0 {
        return Fail(Overflow);
      }
      var solution := new real[systemDim, gridSize]((_, _) => 0.0);
      s := solution;
      o := SeedInitialConditions(solution);
    }

    /** Copies the first `Dim` initial conditions into column 0. */
    method SeedInitialConditions(solution: array2<real>) returns (o: Outcome)
      requires 0 <= systemDim == solution.Length0 && 0 <= gridSize == solution.Length1
      modifies solution
      ensures o.Fail? <==> 0 < systemDim && (initialConditions == null || initialConditions.Length < systemDim || gridSize == 0)
      ensures o.Fail? ==> o == Fail(if initialConditions == null then NullReference else IndexOutOfRange)
      ensures o.Pass? ==> |InitialState()| == systemDim && (0 < gridSize ==> MatrixColumn(solution, 0) == InitialState())
    {
      for i := 0 to systemDim
        invariant initialConditions != null ==> i <= initialConditions.Length
        invariant 0 < i ==> initialConditions != null && 0 < gridSize
        invariant forall k :: 0 <= k < i ==> solution[k, 0] == initialConditions[k]
      {
        if initialConditions == null {
          return Fail(NullReference);
        }
        if initialConditions.Length <= i {
          return Fail(IndexOutOfRange);
        }
        if gridSize == 0 {
          return Fail(IndexOutOfRange);
        }
        solution[i, 0] := initialConditions[i];
      }
      if 0 < gridSize {
        assert MatrixColumn(solution, 0) == InitialState();
      }
      return Pass;
    }

    /** Advances the solution column by column from the state `y0` in column 0. */
    method ExecuteMethod(ghost y0: seq<real>) returns (o: Outcome)
      requires grid != null && s != null && grid.Length == gridSize + 1
      requires 0 <= systemDim == s.Length0 == |y0| && gridSize == s.Length1
      requires 0 < gridSize ==> MatrixColumn(s, 0) == y0
      modifies s
      ensures o.Fail? <==> (2 <= gridSize && |functions| < systemDim)
      ensures o.Fail? ==> o == Fail(ArgumentOutOfRange)
      ensures o.Pass? ==> forall j :: 0 <= j < gridSize ==>
                            MatrixColumn(s, j) == Column(functions, grid[..], h, y0, j)
    {
      var j := 0;
      while j < gridSize - 1
        invariant 0 <= j && (j == 0 || j < gridSize)
        invariant 0 < j ==> systemDim <= |functions|
        invariant forall q :: 0 <= q <= j && q < gridSize ==>
                    MatrixColumn(s, q) == Column(functions, grid[..], h, y0, q)
      {
        o := StepColumn(j, y0);
        if o.Fail? {
          return;
        }
        j := j + 1;
      }
      return Pass;
    }

    /** One step of the method: the k matrix of step j, then column j + 1. */
    method StepColumn(j: int, ghost y0: seq<real>) returns (o: Outcome)
      requires grid != null && s != null && grid.Length == gridSize + 1
      requires 0 <= systemDim == s.Length0 == |y0| && gridSize == s.Length1
      requires 0 <= j && j + 1 < gridSize && (0 < j ==> systemDim <= |functions|)
      requires forall q :: 0 <= q <= j ==> MatrixColumn(s, q) == Column(functions, grid[..], h, y0, q)
      modifies s
      ensures o.Fail? <==> |functions| < systemDim
      ensures o.Fail? ==> o == Fail(ArgumentOutOfRange)
      ensures o.Pass? ==> forall q :: 0 <= q <= j + 1 ==> MatrixColumn(s, q) == Column(functions, grid[..], h, y0, q)
    {
      ghost var y := MatrixColumn(s, j);
      assert y == Column(functions, grid[..], h, y0, j);
      label Before:
      o := NextColumn(j);
      if o.Fail? {
        return;
      }
      assert grid[..][j] == grid[j];
      assert MatrixColumn(s, j + 1) == Column(functions, grid[..], h, y0, j + 1);
      forall q | 0 <= q <= j
        ensures MatrixColumn(s, q) == Column(functions, grid[..], h, y0, q)
      {
        assert MatrixColumn(s, q) == old@Before(MatrixColumn(s, q));
      }
    }

    /** Column j + 1 is one step from column j; no other entry changes. */
    method NextColumn(j: int) returns (o: Outcome)
      requires grid != null && s != null && grid.Length == gridSize + 1
      requires 0 <= systemDim == s.Length0 && gridSize == s.Length1
      requires 0 <= j && j + 1 < gridSize && (0 < j ==> systemDim <= |functions|)
      modifies s
      ensures o.Fail? <==> |functions| < systemDim
      ensures o.Fail? ==> o == Fail(ArgumentOutOfRange)
      ensures o.Pass? ==> MatrixColumn(s, j + 1) == RkStep(functions, grid[j], h, old(MatrixColumn(s, j)))
      ensures forall p, q :: 0 <= p < s.Length0 && 0 <= q < s.Length1 && q != j + 1 ==> s[p, q] == old(s[p, q])
    {
      var k := CalculateK(j);
      if k.Err? {
        return Fail(k.error);
      }
      AdvanceColumn(j, k.value);
      return Pass;
    }

    /** Writes column j + 1 from column j and the k matrix of step j; no other
        entry changes. */
    method AdvanceColumn(j: int, k: array2<real>)
      requires s != null && 0 <= j && j + 1 < s.Length1
      requires 0 <= systemDim == s.Length0 == k.Length0 && k.Length1 == 4 && k != s
      modifies s
      ensures MatrixColumn(s, j + 1)
           == Combine(old(MatrixColumn(s, j)), h, MatrixColumn(k, 0), MatrixColumn(k, 1), MatrixColumn(k, 2), MatrixColumn(k, 3))
      ensures forall p, q :: 0 <= p < s.Length0 && 0 <= q < s.Length1 && q != j + 1 ==> s[p, q] == old(s[p, q])
    {
      ghost var next := Combine(MatrixColumn(s, j), h, MatrixColumn(k, 0), MatrixColumn(k, 1), MatrixColumn(k, 2), MatrixColumn(k, 3));
      for i := 0 to systemDim
        invariant forall p, q :: 0 <= p < s.Length0 && 0 <= q < s.Length1 && q != j + 1 ==> s[p, q] == old(s[p, q])
        invariant forall p :: 0 <= p < i ==> s[p, j + 1] == next[p]
      {
        assert next[i] == s[i, j] + (h / 6.0) * (k[i, 0] + 2.0 * k[i, 1] + 2.0 * k[i, 2] + k[i, 3]);
        s[i, j + 1] := s[i, j] + (h / 6.0) * (k[i, 0] + 2.0 * k[i, 1] + 2.0 * k[i, 2] + k[i, 3]);
      }
      assert MatrixColumn(s, j + 1) == next;
    }

    /** The four k columns of step j, stage after stage. */
    method CalculateK(j: int) returns (r: Result<array2<real>>)
      requires grid != null && s != null && 0 <= j < grid.Length && j < s.Length1
      requires 0 <= systemDim == s.Length0
      ensures r.Err? <==> |functions| < systemDim
      ensures r.Err? ==> r.error == ArgumentOutOfRange
      ensures r.Ok? ==> && fresh(r.value) && r.value.Length0 == systemDim && r.value.Length1 == 4
                        && systemDim <= |functions|
                        && forall c :: 0 <= c < 4 ==>
                             MatrixColumn(r.value, c) == Stage(functions, c, grid[j], h, MatrixColumn(s, j))
    {
      var k := new real[systemDim, 4]((_, _) => 0.0);
      for kIdx := 0 to 4
        invariant fresh(k)
        invariant 0 < kIdx ==> systemDim <= |functions|
        invariant forall c :: 0 <= c < kIdx ==> MatrixColumn(k, c) == Stage(functions, c, grid[j], h, MatrixColumn(s, j))
        invariant forall c :: kIdx <= c < 4 ==> MatrixColumn(k, c) == seq(systemDim, _ => 0.0)
      {
        var o := FillStage(j, kIdx, k);
        if o.Fail? {
          return Err(o.error);
        }
      }
      return Ok(k);
    }

    /** Fills column kIdx of k: right-hand side i applied to the stage argument, for
        each i in turn, each argument read from the column as it stands. */
    method FillStage(j: int, kIdx: int, k: array2<real>) returns (o: Outcome)
      requires grid != null && s != null && 0 <= j < grid.Length && j < s.Length1
      requires 0 <= kIdx < 4 && 0 <= systemDim == s.Length0 == k.Length0 && k.Length1 == 4 && k != s
      requires MatrixColumn(k, kIdx) == seq(systemDim, _ => 0.0)
      modifies k
      ensures o.Fail? <==> |functions| < systemDim
      ensures o.Fail? ==> o.error == ArgumentOutOfRange
      ensures o.Pass? ==> MatrixColumn(k, kIdx) == Stage(functions, kIdx, grid[j], h, MatrixColumn(s, j))
      ensures forall c :: 0 <= c < 4 && c != kIdx ==> MatrixColumn(k, c) == old(MatrixColumn(k, c))
    {
      ghost var y := MatrixColumn(s, j);
      for i := 0 to systemDim
        invariant i <= |functions|
        invariant MatrixColumn(s, j) == y
        invariant MatrixColumn(k, kIdx) == PartialStage(functions, kIdx, grid[j], h, y, i)
        invariant forall p, c :: 0 <= p < systemDim && 0 <= c < 4 && c != kIdx ==> k[p, c] == old(k[p, c])
      {
        if |functions| <= i {
          return Fail(ArgumentOutOfRange);
        }
        FillEntry(j, kIdx, k, i);
      }
      forall c | 0 <= c < 4 && c != kIdx
        ensures MatrixColumn(k, c) == old(MatrixColumn(k, c))
      {
      }
      return Pass;
    }

    /** Entry i of stage kIdx: right-hand side i applied to the stage argument
        read from the k column as it stands. */
    method FillEntry(j: int, kIdx: int, k: array2<real>, i: int)
      requires grid != null && s != null && 0 <= j < grid.Length && j < s.Length1
      requires 0 <= kIdx < 4 && 0 <= systemDim == s.Length0 == k.Length0 && k.Length1 == 4 && k != s
      requires 0 <= i < systemDim && i < |functions|
      modifies k
      ensures MatrixColumn(k, kIdx)
           == old(MatrixColumn(k, kIdx))[i := functions[i](KParams(kIdx, grid[j], h, MatrixColumn(s, j), old(MatrixColumn(k, kIdx))))]
      ensures forall p, c :: 0 <= p < systemDim && 0 <= c < 4 && c != kIdx ==> k[p, c] == old(k[p, c])
    {
      ghost var before := MatrixColumn(k, kIdx);
      var kParams := GetKParams(j, kIdx, k);
      k[i, kIdx] := functions[i](kParams[..]);
      assert MatrixColumn(k, kIdx) == before[i := functions[i](KParams(kIdx, grid[j], h, MatrixColumn(s, j), before))];
    }

    /** The argument of stage `kIdx` of step `currentIdx`, read from the grid, the
        solution column and the k column of that same stage. */
    method GetKParams(currentIdx: int, kIdx: int, k: array2<real>) returns (kParams: array<real>)
      requires grid != null && s != null && 0 <= currentIdx < grid.Length && currentIdx < s.Length1
      requires 0 <= kIdx < 4 && 0 <= systemDim == s.Length0 == k.Length0 && k.Length1 == 4
      ensures fresh(kParams)
      ensures kParams[..] == KParams(kIdx, grid[currentIdx], h, MatrixColumn(s, currentIdx), MatrixColumn(k, kIdx))
    {
      kParams := new real[systemDim + 1];
      ghost var y, kCol := MatrixColumn(s, currentIdx), MatrixColumn(k, kIdx);
      if kIdx == 0 {
        kParams[0] := grid[currentIdx];
        for i := 1 to kParams.Length
          invariant kParams[0] == grid[currentIdx]
          invariant forall p :: 1 <= p < i ==> kParams[p] == s[p - 1, currentIdx]
        {
          kParams[i] := s[i - 1, currentIdx];
        }
        assert kParams[..] == [grid[currentIdx]] + y;
      } else {
        var c := C[kIdx];
        kParams[0] := grid[currentIdx] + c * h;
        for i := 1 to kParams.Length
          invariant kParams[0] == grid[currentIdx] + c * h
          invariant forall p :: 1 <= p < i ==> kParams[p] == s[p - 1, currentIdx] + c * h * k[p - 1, kIdx]
        {
          kParams[i] := s[i - 1, currentIdx] + c * h * k[i - 1, kIdx];
        }
        ghost var shifted := KParams(kIdx, grid[currentIdx], h, y, kCol);
        forall p | 1 <= p < kParams.Length
          ensures kParams[p] == shifted[p]
        {
          assert y[p - 1] == s[p - 1, currentIdx] && kCol[p - 1] == k[p - 1, kIdx];
          assert c * h * kCol[p - 1] == c * h * k[p - 1, kIdx];
        }
        assert kParams[..] == shifted;
      }
    }
  }
}
