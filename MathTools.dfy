/** The uniform grid and the square. */
module MathTools {
  import opened Floats
  import opened Outcomes

  /** The points `Linspace(a, b, n)` produces when `n >= 0`: n+1 values, the last
      one `b`, every other one `a + i*h` with `h = (b-a)/n`. For n = 0 the single
      point is `b`, because the write of `b` lands on index 0 after `a`. */
  function LinspacePoints(a: real, b: real, n: nat): seq<real>
  {
    seq(n + 1, i => if i == n then b else a + i as real * Div(b - a, n as real))
  }

  lemma LinspaceShape(a: real, b: real, n: nat)
    ensures |LinspacePoints(a, b, n)| == n + 1
    ensures LinspacePoints(a, b, n)[n] == b
    ensures 1 <= n ==> LinspacePoints(a, b, n)[0] == a
    ensures n == 0 ==> LinspacePoints(a, b, n) == [b]
  {
  }

  /** Over the reals every gap, the last one included, is exactly (b-a)/n. */
  lemma LinspaceUniform(a: real, b: real, n: nat, i: nat)
    requires i < n
    ensures LinspacePoints(a, b, n)[i + 1] - LinspacePoints(a, b, n)[i] == (b - a) / n as real
  {
    var g, h := LinspacePoints(a, b, n), (b - a) / n as real;
    assert Div(b - a, n as real) == h;
    assert g[i] == a + i as real * h;
    if i + 1 == n {
      assert n as real * h == b - a;
      assert (i + 1) as real * h == i as real * h + h;
    }
  }

  lemma LinspaceIncreasing(a: real, b: real, n: nat)
    requires a < b && 1 <= n
    ensures forall i, j :: 0 <= i < j <= n ==> LinspacePoints(a, b, n)[i] < LinspacePoints(a, b, n)[j]
  {
    var g, h := LinspacePoints(a, b, n), (b - a) / n as real;
    assert 0.0 < h;
    forall i, j | 0 <= i < j <= n ensures g[i] < g[j] {
      StepPositive(a, b, n, i, j);
    }
  }

  lemma StepPositive(a: real, b: real, n: nat, i: nat, j: nat)
    requires a < b && 1 <= n && i < j <= n
    ensures LinspacePoints(a, b, n)[i] < LinspacePoints(a, b, n)[j]
    decreases j - i
  {
    LinspaceUniform(a, b, n, j - 1);
    assert LinspacePoints(a, b, n)[j - 1] < LinspacePoints(a, b, n)[j] by {
      assert 0.0 < (b - a) / n as real;
    }
    if i < j - 1 {
      StepPositive(a, b, n, i, j - 1);
    }
  }

  /** Fills a new array with `n + 1` points from `a` to `b`, each interior point the
      previous one plus the step. A negative `n` fails in .NET: `n < -1` asks for an
      array of negative size, `n = -1` writes `a` into an empty array. */
  method Linspace(a: real, b: real, n: int) returns (r: Result<array<real>>)
    ensures n < -1 ==> r == Err(Overflow)
    ensures n == -1 ==> r == Err(IndexOutOfRange)
    ensures 0 <= n ==> r.Ok? && fresh(r.value) && r.value[..] == LinspacePoints(a, b, n)
  {
    if n + 1 < 0 {
      return Err(Overflow);
    }
    var grid := new real[n + 1];
    if n + 1 == 0 {
      return Err(IndexOutOfRange);
    }
    grid[0] := a;
    grid[n] := b;
    var h := Div(b - a, n as real);
    var i := 1;
    while i < n
      invariant 1 <= i <= n || (n == 0 && i == 1)
      invariant grid[0] == (if n == 0 then b else a) && grid[n] == b
      invariant forall k :: 1 <= k < i ==> grid[k] == a + k as real * h
    {
      ghost var previous := a + (i - 1) as real * h;
      assert grid[i - 1] == previous;
      grid[i] := grid[i - 1] + h;
      assert previous + h == a + i as real * h;
      i := i + 1;
    }
    assert forall k :: 0 <= k <= n ==> grid[k] == LinspacePoints(a, b, n)[k];
    return Ok(grid);
  }

  function Sqr(x: real): (r: real)
    ensures 0.0 <= r && r == Abs(x) * Abs(x)
  {
    x * x
  }
}
