# OptimalControl in Dafny

A model of the numerical core of OptimalControl, a program that finds a
temperature profile for a chemical reactor. The profile is `X7(t)`, with two
parameters. The program integrates six reaction-kinetics equations along the
reactor with a fixed-step Runge-Kutta solver. It scores the outlet
concentrations with a quality criterion. It then maximises that score over the
two `X7` parameters by box-constrained steepest ascent, with a golden-section
line search and central-difference gradients. The optimiser caches every trial:
the solution matrix, the parameter vector and the criterion value.

The model covers the parts this rests on:

- `ArrayExtensions`: null-aware elementwise equality, equality within a
  tolerance, `Fill`, `Slice` and `Append`.
- `MathTools`: `Linspace` and `Sqr`.
- `Vectors`: the `Vector` class, with its dimension-checked operators and norm.
- `Parametrized`: `ParametrizedFunction`, whose trailing parameters are bound
  through a mutable parameter array.
- `Differentiation`: both `Gradient` overloads.
- `DiffEqu`: the configuration of `BasicSolver` and the stepping of
  `RungeKuttaSolver`, as one class.
- `OptimizationMethods`: the golden-section search, `GradientOptimization`, its
  four `SteepestAscent`/`SteepestDescent` wrappers and `IsAllowedVector`.
- `Reactor`: the constant tables, `p`, `R`, the `X7` profile, argument
  unpacking, `V`, `QualityCriteria`, `F` and `F1`–`F6`.
- `ReactorOptimization`: `ReactorOptimizer`, with its pre-condition check, its
  solver set-up, the last-column read-out and the caching objective.

Conventions:

- Every `double` is a `real`.
- `Math.Exp`, `Math.Pow` and `Math.Sqrt` are the uninterpreted fields of a
  `MathLib` value.
- An exception the source throws is an `Err` or `Fail` outcome naming the .NET
  exception type.
- Right-hand sides and objectives are function values.
- Stateful code keeps its form: the classes have fields, the loops carry
  invariants, and in-place updates write arrays.
- Each loop is proved against a specification function, and the properties
  are proved about those functions.

The Runge-Kutta code is followed where it departs from the classical scheme:

- a solution row has `GridSize` entries while the grid has `GridSize + 1`
  points, so the last grid point is never reached;
- a later stage shifts the state along its own k column, which is still
  partly filled, not along the previous stage's column.

`DiffEqu.ExponentialFirstStep` shows the effect on y' = y. With `GridSize` 2
the one step taken gives 1.5, the Euler value. The classical scheme gives
1.6484375.

## Model

| member | source | states |
|---|---|---|
| ArrayExtensions.WithinToleranceSymmetric | OptimalControl/Tools/ArrayExtensions.cs:34-59 | Tolerance equality of two sequences is symmetric. |
| ArrayExtensions.WithinToleranceReflexive | OptimalControl/Tools/ArrayExtensions.cs:34-59 | For eps >= 0, every sequence is within tolerance of itself. |
| ArrayExtensions.EqualsElementwise | OptimalControl/Tools/ArrayExtensions.cs:7-32 | Two nulls are equal and a null never equals an array. Two arrays are equal exactly when their contents are, so differing lengths give false. |
| ArrayExtensions.EqualsElementwiseWithPrecision | OptimalControl/Tools/ArrayExtensions.cs:34-59 | Same null rules. Two arrays are equal exactly when they have the same length and every pair of elements differs by at most eps. |
| ArrayExtensions.Fill | OptimalControl/Tools/ArrayExtensions.cs:61-70 | Every element becomes `val` and the length is kept. A null array is left alone. |
| ArrayExtensions.Slice | OptimalControl/Tools/ArrayExtensions.cs:72-83 | `start >= length` or `end < start` is an ArgumentException. A negative start that would be read is an IndexOutOfRange. Otherwise the result is a new array holding `arr[start .. min(end, length))`. |
| ArrayExtensions.Append | OptimalControl/Tools/ArrayExtensions.cs:85-98 | A new array holding the first array followed by the second. |
| MathTools.LinspaceShape | OptimalControl/Maths/MathTools.cs:7-18 | The grid has n + 1 points, the last is b, and the first is a when n >= 1. For n = 0 the grid is just [b]. |
| MathTools.LinspaceUniform | OptimalControl/Maths/MathTools.cs:12-16 | Over the reals every gap between neighbouring points, the last gap included, is (b - a)/n. |
| MathTools.LinspaceIncreasing | OptimalControl/Maths/MathTools.cs:12-16 | For a < b and n >= 1 the grid is strictly increasing. |
| MathTools.StepPositive | OptimalControl/Maths/MathTools.cs:12-16 | Any later grid point is larger than an earlier one when a < b. |
| MathTools.Linspace | OptimalControl/Maths/MathTools.cs:7-18 | For n >= 0 the method returns a fresh array whose contents are the grid `LinspacePoints(a, b, n)`. n = -1 fails on the write of b; a smaller n fails on the allocation. |
| MathTools.Sqr | OptimalControl/Maths/MathTools.cs:20-23 | The square is non-negative and equals the product of absolute values. |
| Vectors.PlusMinusCancel | OptimalControl/Maths/Common/Vector.cs:86-111 | (v + w) - w == v. |
| Vectors.MinusIsPlusNegated | OptimalControl/Maths/Common/Vector.cs:97-111 | Binary minus is addition of the vector scaled by -1, which is unary minus. |
| Vectors.DotProductSymmetric | OptimalControl/Maths/Common/Vector.cs:66-75 | The dot product is symmetric. |
| Vectors.DotProductSelf | OptimalControl/Maths/Common/Vector.cs:42-48 | A vector's dot product with itself is its sum of squares. |
| Vectors.SumOfSquaresNonNegative | OptimalControl/Maths/Common/Vector.cs:42-48 | A sum of squares is non-negative. |
| Vectors.NormProperties | OptimalControl/Maths/Common/Vector.cs:42-48 | For a lawful square root, the norm is non-negative and its square is the sum of squares. |
| Vectors.Vector.constructor | OptimalControl/Maths/Common/Vector.cs:13-17 | The vector shares the caller's array, and Dim is its length. |
| Vectors.Vector.Copy | OptimalControl/Maths/Common/Vector.cs:19-23 | Same Dim and contents, in a fresh array. |
| Vectors.Vector.Zeros | OptimalControl/Maths/Common/Vector.cs:25-30 | n zeros in a fresh array, with Dim n. |
| Vectors.Vector.Norm | OptimalControl/Maths/Common/Vector.cs:42-48 | The square root of the sum of squares of the whole data array. |
| Vectors.Vector.SetDim | OptimalControl/Maths/Common/Vector.cs:50-54 | A positive value becomes Dim; any other value is ignored. |
| Vectors.Vector.Get | OptimalControl/Maths/Common/Vector.cs:56-59 | The element at an index inside the data array; any other index is an IndexOutOfRange. |
| Vectors.Vector.Dot | OptimalControl/Maths/Common/Vector.cs:66-75 | Differing Dims fail with NonMatchingDimensions. Otherwise the result is the sum of products over the first Dim elements. |
| Vectors.Vector.Scale | OptimalControl/Maths/Common/Vector.cs:77-84 | A fresh vector of the same Dim, each component scaled by c. |
| Vectors.Vector.Add | OptimalControl/Maths/Common/Vector.cs:86-95 | Differing Dims fail with NonMatchingDimensions. Otherwise the result is the elementwise sum, with the same Dim. |
| Vectors.Vector.Negate | OptimalControl/Maths/Common/Vector.cs:97-100 | Unary minus is the vector scaled by -1. |
| Vectors.Vector.Subtract | OptimalControl/Maths/Common/Vector.cs:102-111 | Differing Dims fail with NonMatchingDimensions. Otherwise the result is the elementwise difference, with the same Dim. |
| Parametrized.ParametrizedFunction.constructor | OptimalControl/Maths/ParametrizedFunction.cs:17-22 | `count` zero parameters, with the parameter count equal to `count`. |
| Parametrized.ParametrizedFunction.Unbound | OptimalControl/Maths/ParametrizedFunction.cs:24-25 | No parameters. |
| Parametrized.ParametrizedFunction.WithParameters | OptimalControl/Maths/ParametrizedFunction.cs:27-31 | The parameters go through the setter: a given array is stored as is, and null becomes an empty array. |
| Parametrized.ParametrizedFunction.SetParameters | OptimalControl/Maths/ParametrizedFunction.cs:33-41 | A non-null array is stored itself, with the count equal to its length. Null stores a fresh empty array with count 0. |
| Parametrized.ParametrizedFunction.SetParameter | OptimalControl/Maths/ParametrizedFunction.cs:48-51 | Only parameter `idx` changes. An index outside the array is an IndexOutOfRange and changes nothing. |
| Parametrized.ParametrizedFunction.Eval | OptimalControl/Maths/ParametrizedFunction.cs:53-57 | The function applied to the arguments followed by the parameters. |
| Differentiation.DotProductUpdate | OptimalControl/Maths/Common/Differentiation.cs:13-14 | Moving one coordinate by d moves a dot product by that coordinate's weight times d. |
| Differentiation.AffineDifference | OptimalControl/Maths/Common/Differentiation.cs:13-15 | One central-difference quotient of an affine function is exactly its coefficient. |
| Differentiation.GradientOfAffine | OptimalControl/Maths/Common/Differentiation.cs:7-20 | For e != 0, the central-difference gradient of an affine function is exactly its coefficient vector. |
| Differentiation.Gradient | OptimalControl/Maths/Common/Differentiation.cs:7-20 | A fresh vector whose Dim is x.Length and whose component i is (f(x + e·eᵢ) - f(x - e·eᵢ))/(2e). f is called 2·x.Length times, on probes that differ from x only at coordinate i. x is not modified. |
| Differentiation.CentralDifference | OptimalControl/Maths/Common/Differentiation.cs:13-17 | One pass of the loop: f is called on the two probes of coordinate i, and the quotient is gradient component i. Both clones equal x again afterwards. |
| Differentiation.GradientAt | OptimalControl/Maths/Common/Differentiation.cs:22-25 | The Vector overload is the array overload applied to the data array. |
| DiffEqu.PartialStage | OptimalControl/Maths/DiffEqu/RungeKuttaSolver.cs:84-94 | A stage column keeps the length of the state. |
| DiffEqu.PartialStageTail | OptimalControl/Maths/DiffEqu/RungeKuttaSolver.cs:86-92 | Entries of a stage not yet computed are still 0 when that stage reads them. |
| DiffEqu.PartialStageStable | OptimalControl/Maths/DiffEqu/RungeKuttaSolver.cs:86-92 | A computed entry of a stage is never changed by the later entries. |
| DiffEqu.KParamsOfZeros | OptimalControl/Maths/DiffEqu/RungeKuttaSolver.cs:96-118 | A stage argument built from an all-zero column is [t + C[s]·h] followed by the unshifted state. |
| DiffEqu.FirstComponentSeesUnshiftedState | OptimalControl/Maths/DiffEqu/RungeKuttaSolver.cs:86-118 | In every stage the first right-hand side is evaluated at the unshifted state. |
| DiffEqu.ScalarStep | OptimalControl/Maths/DiffEqu/RungeKuttaSolver.cs:56-66 | For one equation, a step is y + (h/6)(f(t, y) + 4f(t + h/2, y) + f(t + h, y)). |
| DiffEqu.ExponentialFirstStep | OptimalControl/Maths/DiffEqu/RungeKuttaSolver.cs:56-118 | For y' = y on [0, 1] with GridSize 2, column 1 is 1.5. |
| DiffEqu.Combine | OptimalControl/Maths/DiffEqu/RungeKuttaSolver.cs:63 | The update y + (h/6)(k0 + 2k1 + 2k2 + k3) keeps the dimension. |
| DiffEqu.RkStep | OptimalControl/Maths/DiffEqu/RungeKuttaSolver.cs:56-66 | One step keeps the dimension of the state. |
| DiffEqu.Column | OptimalControl/Maths/DiffEqu/RungeKuttaSolver.cs:56-66 | Every column of the solution has the dimension of the initial state. |
| DiffEqu.MatrixColumn | OptimalControl/Chemical/ReactorOptimizer.cs:193-196 | A column of a matrix has one entry per row. |
| DiffEqu.RungeKuttaSolver.constructor | OptimalControl/Maths/DiffEqu/BasicSolver.cs:19-24 | A fresh solver has no grid, no functions and no solution. |
| DiffEqu.RungeKuttaSolver.SetGridRange | OptimalControl/Maths/DiffEqu/BasicSolver.cs:81-86 | Stores a and b, changes nothing else, and returns the same solver. |
| DiffEqu.RungeKuttaSolver.SetGridSize | OptimalControl/Maths/DiffEqu/BasicSolver.cs:88-92 | Stores the grid size only, and returns the same solver. |
| DiffEqu.RungeKuttaSolver.SetDim | OptimalControl/Maths/DiffEqu/BasicSolver.cs:94-98 | Stores the dimension only, and returns the same solver. |
| DiffEqu.RungeKuttaSolver.SetFunctions | OptimalControl/Maths/DiffEqu/BasicSolver.cs:100-104 | Stores the right-hand sides only, and returns the same solver. |
| DiffEqu.RungeKuttaSolver.SetInitialConditions | OptimalControl/Maths/DiffEqu/BasicSolver.cs:106-110 | Stores the initial conditions only, and returns the same solver. |
| DiffEqu.RungeKuttaSolver.Solution | OptimalControl/Maths/DiffEqu/BasicSolver.cs:63-74 | Before a solution exists the getter is an InvalidOperation; afterwards it returns the solution. |
| DiffEqu.RungeKuttaSolver.Solve | OptimalControl/Maths/DiffEqu/RungeKuttaSolver.cs:19-36 | The outcome is the error the configuration leads to. On success: the grid is `Linspace(a, b, GridSize)`, the step is (b - a)/GridSize, and the solution is fresh with Dim rows of GridSize entries. Column j is the initial state advanced j times by `RkStep`. |
| DiffEqu.RungeKuttaSolver.InitGridAndSolutionMatrix | OptimalControl/Maths/DiffEqu/RungeKuttaSolver.cs:38-54 | Grid, step and a fresh Dim × GridSize solution whose column 0 holds the first Dim initial conditions. A missing or short condition array fails. |
| DiffEqu.RungeKuttaSolver.SeedInitialConditions | OptimalControl/Maths/DiffEqu/RungeKuttaSolver.cs:50-53 | Column 0 becomes the first Dim initial conditions. A null array is a NullReference; a short array or an empty row is an IndexOutOfRange. |
| DiffEqu.RungeKuttaSolver.ExecuteMethod | OptimalControl/Maths/DiffEqu/RungeKuttaSolver.cs:56-66 | For every j < GridSize, column j is the seeded state advanced j times. Fewer functions than equations fail once a step is taken. |
| DiffEqu.RungeKuttaSolver.StepColumn | OptimalControl/Maths/DiffEqu/RungeKuttaSolver.cs:58-65 | Preserves "columns 0..j are the iterates" through column j + 1. |
| DiffEqu.RungeKuttaSolver.NextColumn | OptimalControl/Maths/DiffEqu/RungeKuttaSolver.cs:60-65 | Column j + 1 becomes one step from column j; no other entry changes. |
| DiffEqu.RungeKuttaSolver.AdvanceColumn | OptimalControl/Maths/DiffEqu/RungeKuttaSolver.cs:61-64 | Column j + 1 is column j plus (h/6)(k0 + 2k1 + 2k2 + k3), row by row; nothing else changes. |
| DiffEqu.RungeKuttaSolver.CalculateK | OptimalControl/Maths/DiffEqu/RungeKuttaSolver.cs:84-94 | A fresh Dim × 4 matrix whose column s is stage s of step j. Fewer functions than equations is an ArgumentOutOfRange. |
| DiffEqu.RungeKuttaSolver.FillStage | OptimalControl/Maths/DiffEqu/RungeKuttaSolver.cs:86-92 | Column s becomes stage s, computed entry by entry from the partly filled column. Other columns are unchanged. |
| DiffEqu.RungeKuttaSolver.FillEntry | OptimalControl/Maths/DiffEqu/RungeKuttaSolver.cs:88-91 | Entry i of column s becomes right-hand side i applied to the stage argument read from the column as it stands. Every other entry of k is unchanged. |
| DiffEqu.RungeKuttaSolver.GetKParams | OptimalControl/Maths/DiffEqu/RungeKuttaSolver.cs:96-118 | A fresh array [t + C[s]·h, y1 + C[s]·h·k1, ...] read from the grid, the solution column and column s of k; stage 0 is [t] + y. |
| OptimizationMethods.GoldenRatio | OptimalControl/Maths/Optimization/OptimizationMethods.cs:14-16 | (√5 - 1)/2 satisfies r² + r = 1 and 0 < r < 1. |
| OptimizationMethods.GoldenRoot | OptimalControl/Maths/Optimization/OptimizationMethods.cs:16 | (s - 1)/2 is the golden ratio for the non-negative root s of 5. |
| OptimizationMethods.GoldenAlgebra | OptimalControl/Maths/Optimization/OptimizationMethods.cs:32-48 | The two identities the bracket updates rest on, r²W = W - rW and r²(rW) = rW - r²W. |
| OptimizationMethods.DiscardLeftStep | OptimalControl/Maths/Optimization/OptimizationMethods.cs:32-40 | Dropping [a, v] keeps v = a + r²(b - a), w = a + r(b - a), fv = f(v) and fw = f(w). The bracket shrinks by r and stays inside the old one. |
| OptimizationMethods.DiscardRightStep | OptimalControl/Maths/Optimization/OptimizationMethods.cs:41-48 | The same for dropping [w, b], which includes ties. |
| OptimizationMethods.GsStepPreserves | OptimalControl/Maths/Optimization/OptimizationMethods.cs:32-49 | Every iteration keeps the bracket invariant, multiplies b - a and L by r, and stays inside the old bracket. |
| OptimizationMethods.GsStepKeepsBest | OptimalControl/Maths/Optimization/OptimizationMethods.cs:32-48 | The better of the two cached interior values never gets worse. |
| OptimizationMethods.GsMeasureDecreases | OptimalControl/Maths/Optimization/OptimizationMethods.cs:30-49 | While L >= eps, an iteration lowers L/((1 - r)eps) by at least 1, so the loop ends. |
| OptimizationMethods.GsLoopFinal | OptimalControl/Maths/Optimization/OptimizationMethods.cs:30-50 | The final bracket keeps the invariant, lies inside the first one, and has L < eps. |
| OptimizationMethods.GoldenSectionResult | OptimalControl/Maths/Optimization/OptimizationMethods.cs:51-52 | For a <= b the returned argument a + L/2 lies in the final bracket, hence in [a, b], and the returned value is f(argument). |
| OptimizationMethods.GoldenSectionIs | OptimalControl/Maths/Optimization/OptimizationMethods.cs:51-52 | The result is the midpoint of [a, a + L] of the final bracket, with its value. |
| OptimizationMethods.MidpointInside | OptimalControl/Maths/Optimization/OptimizationMethods.cs:51 | a + L/2 lies in [a, b]. |
| OptimizationMethods.GoldenSectionMethod | OptimalControl/Maths/Optimization/OptimizationMethods.cs:25-53 | The loop computes the golden-section search with r = (√5 - 1)/2. |
| OptimizationMethods.StartBracket | OptimalControl/Maths/Optimization/OptimizationMethods.cs:27-29 | The first interior points and their values satisfy the bracket invariant. |
| OptimizationMethods.NarrowBracket | OptimalControl/Maths/Optimization/OptimizationMethods.cs:32-49 | One loop body is one `GsStep`: MAXIMIZE drops the left part when fv < fw, MINIMIZE when fv > fw, otherwise the right part. |
| OptimizationMethods.AllowedFromIff | OptimalControl/Maths/Optimization/OptimizationMethods.cs:135-147 | With long enough arrays, the check from index i is true iff vMin[k] <= v[k] <= vMax[k] for every k from i below Dim. |
| OptimizationMethods.AllowedIff | OptimalControl/Maths/Optimization/OptimizationMethods.cs:135-147 | `IsAllowedVector` is true iff every component below Dim lies within its bounds. |
| OptimizationMethods.IsAllowedVector | OptimalControl/Maths/Optimization/OptimizationMethods.cs:135-147 | The loop with early return computes the bound check, including the IndexOutOfRange of a short array. |
| OptimizationMethods.NextPoint | OptimalControl/Maths/Optimization/OptimizationMethods.cs:117-122 | A step keeps the dimension of the point. |
| OptimizationMethods.LineStep | OptimalControl/Maths/Optimization/OptimizationMethods.cs:118-121 | x + c·λ·grad keeps the dimension, where λ is the golden-section optimum along the line. |
| OptimizationMethods.Move | OptimalControl/Maths/Optimization/OptimizationMethods.cs:121 | x + (c·λ)·g keeps the dimension. |
| OptimizationMethods.LoopStops | OptimalControl/Maths/Optimization/OptimizationMethods.cs:123-131 | A loop that ends has taken k >= n steps, with k = n or k <= max. Its result is the k-th iterate, and either the budget is spent or the exit test says stop. |
| OptimizationMethods.DescendUnfold | OptimalControl/Maths/Optimization/OptimizationMethods.cs:123-131 | One turn of the while loop: the exit test fails, stops or steps once more. |
| OptimizationMethods.StepsLength | OptimalControl/Maths/Optimization/OptimizationMethods.cs:123-131 | A step that keeps the dimension keeps it over any number of steps. |
| OptimizationMethods.StepKeepsLength | OptimalControl/Maths/Optimization/OptimizationMethods.cs:121 | Every step of the search keeps the dimension. |
| OptimizationMethods.GradientOptimizationResult | OptimalControl/Maths/Optimization/OptimizationMethods.cs:103-133 | A successful search has taken k >= 1 steps, with k = 1 or k <= maxNumberOfSteps. It returns the k-th iterate and its value f(x). It stopped because the budget was spent, the point left the box, or the gradient norm fell to globalPrecision. |
| OptimizationMethods.GradientOptimization | OptimalControl/Maths/Optimization/OptimizationMethods.cs:103-133 | The method computes the specified search, failure cases included. |
| OptimizationMethods.DescendLoop | OptimalControl/Maths/Optimization/OptimizationMethods.cs:123-131 | The while loop computes `Descend` from the first step on. |
| OptimizationMethods.ExitTest | OptimalControl/Maths/Optimization/OptimizationMethods.cs:123-124 | The while condition is evaluated left to right: step budget, box, then gradient norm. |
| OptimizationMethods.Advance | OptimalControl/Maths/Optimization/OptimizationMethods.cs:126-129 | The next point is the line step, and the next gradient is the central-difference gradient there. |
| OptimizationMethods.MoveAlong | OptimalControl/Maths/Optimization/OptimizationMethods.cs:121-128 | xj + (c·λ)·xjGrad, as a fresh vector. |
| OptimizationMethods.SteepestAscent | OptimalControl/Maths/Optimization/OptimizationMethods.cs:79-89 | The search with MAXIMIZE. |
| OptimizationMethods.SteepestDescent | OptimalControl/Maths/Optimization/OptimizationMethods.cs:91-101 | The search with MINIMIZE. |
| OptimizationMethods.SteepestAscentWithin | OptimalControl/Maths/Optimization/OptimizationMethods.cs:55-65 | The array overload: bounds wrapped as vectors, MAXIMIZE. |
| OptimizationMethods.SteepestDescentWithin | OptimalControl/Maths/Optimization/OptimizationMethods.cs:67-77 | The array overload: bounds wrapped as vectors, MINIMIZE. |
| Reactor.X7Profile | OptimalControl/Chemical/ReactorCommons.cs:143-156 | The profile is 373 at t = 0, and on [0, 90) it stays between 373 and b. |
| Reactor.RampBetween | OptimalControl/Chemical/ReactorCommons.cs:146-147 | On [0, 90) the linear ramp lies between its end values 373 and b. |
| Reactor.X7Eval | OptimalControl/Chemical/ReactorCommons.cs:143-156 | Evaluating X7 fails with IndexOutOfRange exactly when fewer than two parameters are bound. Otherwise it is the profile at t. |
| Reactor.R | OptimalControl/Chemical/ReactorCommons.cs:158-161 | Defined exactly for i in 1..13, as U[i-1]·exp(23 - E[i-1]/x7). Other indices are an IndexOutOfRange. |
| Reactor.ReactorFunctionArguments.x | OptimalControl/Chemical/ReactorCommons.cs:217-238 | x(i) for i in 1..7 is the i-th component, 7 being the temperature. Other indices are an ArgumentException. |
| Reactor.Component | OptimalControl/Chemical/ReactorCommons.cs:165-176 | A present argument is read; a missing trailing one stays 0. |
| Reactor.Unpack | OptimalControl/Chemical/ReactorCommons.cs:165-176 | An empty argument array or fewer than two X7 parameters is an IndexOutOfRange. Otherwise: t is args[0], x7 is the profile at t, and x1..x6 are the present components or 0. |
| Reactor.WeightedSumExpanded | OptimalControl/Chemical/ReactorCommons.cs:113-116 | s1 = 84x1 + 56x2 + 42x3 + 28x4 + 92x5 + 16x6. |
| Reactor.QualitySumExpanded | OptimalControl/Chemical/ReactorCommons.cs:127-131 | The upper sum is 7.8·56x2 + 14·42x3 + 14·28x4. |
| Reactor.VOf | OptimalControl/Chemical/ReactorCommons.cs:110-120 | V is defined exactly when the arguments unpack. |
| Reactor.VPositive | OptimalControl/Chemical/ReactorCommons.cs:48-120 | V is positive while t < 300, x7 > 0 and s1 > 0. |
| Reactor.V | OptimalControl/Chemical/ReactorCommons.cs:110-120 | The accumulating loop computes V = 509.209·p(t)·s1/(x7·(G_GASOLINE + G_STEAM·s1/M[0])). |
| Reactor.VFactorOfSum | OptimalControl/Chemical/ReactorCommons.cs:110-120 | V written with the accumulated s1. |
| Reactor.QualityCriteriaOf | OptimalControl/Chemical/ReactorCommons.cs:122-141 | The criterion is defined exactly when the arguments unpack. |
| Reactor.QualityBounds | OptimalControl/Chemical/ReactorCommons.cs:122-141 | For non-negative concentrations with positive total mass, the criterion lies in [0, 14]. |
| Reactor.QuotientBetween | OptimalControl/Chemical/ReactorCommons.cs:140 | 0 <= x <= c·y with y > 0 puts x/y in [0, c]. |
| Reactor.QualityCriteria | OptimalControl/Chemical/ReactorCommons.cs:122-141 | The two loops compute Σ_{i=2..4} Q[i-1]M[i]xᵢ / Σ_{i=1..6} M[i]xᵢ. |
| Reactor.P | OptimalControl/Chemical/ReactorCommons.cs:48-51 | The pressure p(t) = 5 − t/60 is positive exactly for t < 300 and at most 5 for t ≥ 0. |
| Reactor.Rhs1 | OptimalControl/Chemical/ReactorCommons.cs:74-78 | F1 = −(R1+R2+R3+R4)·x1·V. It is 0 when x1 = 0. With non-negative rates, concentrations and V it is ≤ 0: component 1 is only consumed. |
| Reactor.Rhs2 | OptimalControl/Chemical/ReactorCommons.cs:80-84 | F2 = (R3·x1 − (R6+R7+R10+R13)·x2)·V. With non-negative rates, concentrations and V it is ≥ 0 when x2 = 0. |
| Reactor.Rhs3 | OptimalControl/Chemical/ReactorCommons.cs:86-90 | F3 = (R2·x1 + R6·x2 − (R5+R9+R12)·x3)·V. With non-negative rates, concentrations and V it is ≥ 0 when x3 = 0. |
| Reactor.Rhs4 | OptimalControl/Chemical/ReactorCommons.cs:92-96 | F4 = (R1·x1 + R7·x2 + R5·x3 − (R8+R11)·x4)·V. With non-negative rates, concentrations and V it is ≥ 0 when x4 = 0. |
| Reactor.Rhs5 | OptimalControl/Chemical/ReactorCommons.cs:98-102 | F5 = (R10·x2 + R9·x3 + R8·x4)·V. With non-negative rates, concentrations and V it is ≥ 0: component 5 is only produced. |
| Reactor.Rhs6 | OptimalControl/Chemical/ReactorCommons.cs:104-108 | F6 = (R4·x1 + R13·x2 + R12·x3 + R11·x4)·V. With non-negative rates, concentrations and V it is ≥ 0: component 6 is only produced. |
| Reactor.F | OptimalControl/Chemical/ReactorCommons.cs:53-72 | An index outside 1..6 is an ArgumentException, raised before the arguments are read. Otherwise F(i) is Fi, defined exactly when the arguments unpack. |
| Reactor.MassConservation | OptimalControl/Chemical/ReactorCommons.cs:74-108 | F1 + F2 + F3 + F4 + F5 + F6 = 0 for every argument, every rate and every V. |
| Reactor.ReactorFunctions | OptimalControl/Chemical/ReactorOptimizer.cs:244-256 | Six right-hand sides, F1 to F6 in order. |
| Reactor.ReactorFunctionsAgree | OptimalControl/Chemical/ReactorOptimizer.cs:244-256 | With two X7 parameters bound, the n-th solver function is F(n). |
| ReactorOptimization.Outlet | OptimalControl/Chemical/ReactorOptimizer.cs:188-198 | The last solution column has the six concentrations. |
| ReactorOptimization.OutletState | OptimalControl/Chemical/ReactorOptimizer.cs:167-173 | The outlet state for bound parameters has six concentrations. |
| ReactorOptimization.SolveOutlet | OptimalControl/Chemical/ReactorOptimizer.cs:169 | Solving the reactor configuration either fails with the solver's error or leaves a fresh 6 × GridSize solution whose last column is the outlet state. |
| ReactorOptimization.Criterion | OptimalControl/Chemical/ReactorOptimizer.cs:173-174 | A last column that was not produced passes on its error. |
| ReactorOptimization.TrialValue | OptimalControl/Chemical/ReactorOptimizer.cs:167-174 | A new trial has a value exactly when at least two X7 parameters are bound. |
| ReactorOptimization.CriterionOfOutlet | OptimalControl/Chemical/ReactorOptimizer.cs:173-174 | The criterion of [MaxDist] + outlet state is the trial value. |
| ReactorOptimization.TrialValueBounds | OptimalControl/Chemical/ReactorOptimizer.cs:173-174 | With non-negative outlet concentrations of positive mass, a trial scores in [0, 14]. |
| ReactorOptimization.PrepareInitialConditions | OptimalControl/Chemical/ReactorOptimizer.cs:258-261 | The initial conditions are [1, 0, 0, 0, 0, 0]. |
| ReactorOptimization.ProbeRepeats | OptimalControl/Chemical/ReactorOptimizer.cs:166 | The repeat tolerance equals the differentiation step 1e-5. The plus-probe of coordinate 1 is within tolerance of the minus-probe of coordinate 0 (the recorded copy) but not of the minus-probe of coordinate 1 (the aliased array). The point itself is within tolerance of the minus-probe of its last coordinate and of itself, so the final evaluation is a repeat either way. |
| ReactorOptimization.RecordKeepsNoRepeats | OptimalControl/Chemical/ReactorOptimizer.cs:166-171 | Recording a vector that is not within 1e-5 of the last one keeps "no two consecutive entries within tolerance". |
| ReactorOptimization.ReactorOptimizer.constructor | OptimalControl/Chemical/ReactorOptimizer.cs:44-55 | Empty histories, no distances, no solver and no parameter vectors. |
| ReactorOptimization.ReactorOptimizer.MinDist | OptimalControl/Chemical/ReactorOptimizer.cs:104-108 | Reading an unset MinDist is an InvalidOperation. |
| ReactorOptimization.ReactorOptimizer.MaxDist | OptimalControl/Chemical/ReactorOptimizer.cs:110-114 | Reading an unset MaxDist is an InvalidOperation. |
| ReactorOptimization.ReactorOptimizer.SetMinDist | OptimalControl/Chemical/ReactorOptimizer.cs:104-108 | MinDist becomes the value. |
| ReactorOptimization.ReactorOptimizer.SetMaxDist | OptimalControl/Chemical/ReactorOptimizer.cs:110-114 | MaxDist becomes the value. |
| ReactorOptimization.ReactorOptimizer.SetInitialX7Parameters | OptimalControl/Chemical/ReactorOptimizer.cs:131-135 | A copy of the vector is stored; a null vector is a NullReference. |
| ReactorOptimization.ReactorOptimizer.CheckPreConditions | OptimalControl/Chemical/ReactorOptimizer.cs:200-208 | Fails with InvalidOperation exactly when the initial, minimal or maximal parameter vector is missing. |
| ReactorOptimization.ReactorOptimizer.InitializeSolver | OptimalControl/Chemical/ReactorOptimizer.cs:227-242 | A fresh solver over [MinDist, MaxDist], with 0 and 180 when unset. It has NumberOfSamples points, F1–F6, dimension 6, initial conditions [1, 0, 0, 0, 0, 0] and no solution. |
| ReactorOptimization.ReactorOptimizer.Optimize | OptimalControl/Chemical/ReactorOptimizer.cs:154-186 | A missing parameter vector fails with InvalidOperation before any solver is built. Otherwise the solver is set up for the search. |
| ReactorOptimization.ReactorOptimizer.GetSolutionLastColumn | OptimalControl/Chemical/ReactorOptimizer.cs:188-198 | Dim + 1 values: MaxDist, then the last entry of each solution row. The errors are those of the getters. |
| ReactorOptimization.ReactorOptimizer.RunTrial | OptimalControl/Chemical/ReactorOptimizer.cs:163-169 | The solver is solved with the right-hand sides bound to the current X7 parameters. The outcome is the trial's error, or a solution whose last column is the outlet state. |
| ReactorOptimization.ReactorOptimizer.RecordTrialAsWritten | OptimalControl/Chemical/ReactorOptimizer.cs:167-172 | As written: the solution and the caller's own array are appended to the histories. |
| ReactorOptimization.ReactorOptimizer.RecordTrial | OptimalControl/Chemical/ReactorOptimizer.cs:167-172 | Corrected: the solution and a copy of the trial vector are appended. The recorded trials grow by exactly that vector, and a new trial keeps "no consecutive repeats". |
| ReactorOptimization.ReactorOptimizer.RecordCopy | OptimalControl/Chemical/ReactorOptimizer.cs:170-171 | One entry is appended to each of Approximations and X7Params. The earlier entries and their contents are unchanged. |
| ReactorOptimization.ReactorOptimizer.ProbeAsWritten | OptimalControl/Maths/Common/Differentiation.cs:13-17 | After the gradient routine restores the probe coordinate, the entry recorded as written no longer holds the probe its solution was computed for. |
| ReactorOptimization.ReactorOptimizer.Probe | OptimalControl/Maths/Common/Differentiation.cs:13-17 | With a copy recorded, the entry still holds the probe after the restore. |
| ReactorOptimization.ReactorOptimizer.LastColumnIs | OptimalControl/Chemical/ReactorOptimizer.cs:188-198 | The last-column read-out of a solution is [MaxDist] followed by its last column. |
| ReactorOptimization.ReactorOptimizer.NewTrial | OptimalControl/Chemical/ReactorOptimizer.cs:167-176 | With the corrected recording (see "## Findings"): a new trial that fails changes no history. A successful one appends the solution, a copy of the trial vector and the trial value, and returns the trial value. It keeps "no consecutive repeats". |
| ReactorOptimization.ReactorOptimizer.ScoreTrial | OptimalControl/Chemical/ReactorOptimizer.cs:173-176 | The criterion of the trial just solved is the trial value and is appended to the values. |
| ReactorOptimization.ReactorOptimizer.RecordValue | OptimalControl/Chemical/ReactorOptimizer.cs:175-176 | Only a produced value is appended. |
| ReactorOptimization.ReactorOptimizer.LastSolutionCriterion | OptimalControl/Chemical/ReactorOptimizer.cs:173-174 | The quality criterion of the last solution column. |
| ReactorOptimization.ReactorOptimizer.Objective | OptimalControl/Chemical/ReactorOptimizer.cs:161-180 | The arguments are bound to X7 first. A repeat trial (within 1e-5 of the last recorded vector) changes no history and reuses the last solution. For a new trial, a failed solve appends nothing. A solved one appends the solution and a copy of the arguments, and appends the value only when the criterion is produced (it is not with fewer than two X7 parameters). When a value is returned, equal list lengths are preserved. With the corrected recording (see "## Findings"), which stores a copy of the arguments, "no two consecutive recorded vectors within tolerance" is preserved too; the source as written does not keep it. |

## Left out

- Logging (log4net) and the string formatters `GetContentsString` and `DeepGetContentsString`: they change results only when debug logging is enabled, where they can throw earlier than the model. In `IsAllowedVector` (OptimalControl/Maths/Optimization/OptimizationMethods.cs:139-140) the debug line reads `v[i]`, `vMin[i]` and `vMax[i]` before the comparison, so a bound array shorter than Dim throws IndexOutOfRange where the model returns false on an earlier failed lower bound. In the objective (OptimalControl/Chemical/ReactorOptimizer.cs:164-165) the debug line formats the parameters, and an empty array makes `GetContentsString` write `rows[0]` of an empty array (OptimalControl/Tools/ArrayExtensions.cs:102-104) and throw IndexOutOfRange.
- `LogOptimizationStart`, `optResult`, the `NumberOfSamples` and precision getters and setters, and the other plain property accessors: each only stores or returns a field. The solver's getters are its fields.
- IEEE floating point: rounding, infinities and NaN are not modelled. Division by zero uses a placeholder value.
- Floats.Div: returns 0.0 when the divisor is 0, where .NET gives an infinity or NaN.
- `Math.Exp`, `Math.Pow` and `Math.Sqrt` are uninterpreted. The norm results assume the square root is non-negative and squares back. The golden-section results assume the same only for the root of 5.
- Reactor.ReactorFunctions: the solver's right-hand sides are total functions. Where the source's F1–F6 or the X7 function would throw inside the solver, the model's function yields 0.0. The failure is reported instead as the trial's error (`TrialError`), with the same exception kind.
- ReactorOptimization.ReactorOptimizer.Optimize: modelled up to the call of `SteepestAscent`. The search over the caching objective is not composed with it: the optimiser takes a pure objective, and the caching objective is `Objective`, modelled on its own.
- ReactorOptimization.ReactorOptimizer.Objective: the source's right-hand sides read the shared `X7.Parameters` when called. The model binds the parameters into the right-hand sides and re-installs them before every solve. The shared `X7` object is a field of the optimiser.
- ReactorOptimization.ReactorOptimizer.Objective: records a fresh copy of the arguments in X7Params, which is the corrected behaviour of "## Findings". The source stores the caller's array itself (OptimalControl/Chemical/ReactorOptimizer.cs:171); that branch is `RecordTrialAsWritten`. "No consecutive repeats" is proved only for the corrected recording. Recording a copy also changes which calls are repeats, because the repeat tolerance 1e-5 equals the differentiation step (`ProbeRepeats`). With a copy, the plus-probe of coordinate 1 is a repeat of the recorded minus-probe of coordinate 0. As written, it is compared with the aliased array, 2e away, and counts as new. The final `f(xj.Data)` of the gradient search (OptimalControl/Maths/Optimization/OptimizationMethods.cs:132) is a repeat either way, so it returns the cached criterion of a probe point with or without the alias.
- ReactorOptimization.ReactorOptimizer.NewTrial: records a fresh copy of the trial vector (the corrected behaviour of "## Findings"), where the source stores the caller's array; the branch as written is `RecordTrialAsWritten`.
- Null and negative arguments no core call site passes: a null array given to `Slice` or `Append` (a NullReference in the source) cannot be expressed, since the model's arrays are non-null. A negative `n` for `Vectors.Vector.Zeros` and a negative `paramsCount` for the `ParametrizedFunction` constructor (an OverflowException in the source) are excluded by their preconditions.
- OptimizationMethods.GoldenSectionMethod: requires eps > 0. With eps <= 0 the loop of the source does not end on a non-empty bracket.
- OptimizationMethods.GradientOptimization: the direction closure captures xj by reference. The model passes the current point and gradient to each line search, which is what the closure reads when it is called.
- The jagged `double[][]` solution is a two-dimensional array, whose rows all have the same length as in the source. `BasicSolver` and `RungeKuttaSolver` are one class.
- `MIN_GRAD_VALUE` and `MAX_GRAD_VALUE` are declared and never read, in the source and in the model.
- Numerical accuracy is out of scope: Runge-Kutta error order, golden-section precision on functions that are not unimodal, and convergence of the gradient search.
- `NonMatchingDimensionsException` is the `NonMatchingDimensions` error.

## Findings

| source | as written | input that shows it | evidently intended | confidence | as-written member | corrected member |
|---|---|---|---|---|---|---|
| OptimalControl/Chemical/ReactorOptimizer.cs:171 | The objective records the caller's array itself in X7Params. The gradient routine then writes the probe coordinate back into that same array (OptimalControl/Maths/Common/Differentiation.cs:16-17), so the recorded entry changes after its solution was stored. | x = [0.5, 300], e = 1e-5, coordinate 0. The entry recorded for the probe [0.50001, 300] reads [0.5, 300] once the coordinate is restored. | Each X7Params entry holds the vector its solution was computed for, so a copy is recorded. A copy does not leave the rest unchanged: the repeat tolerance equals the differentiation step, so a copy turns some gradient probes into cache hits that the aliased array would have treated as new (`ReactorOptimization.ProbeRepeats`). | high; not executed | ReactorOptimization.ReactorOptimizer.ProbeAsWritten | ReactorOptimization.ReactorOptimizer.Probe |
