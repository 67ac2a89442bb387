/**
 * The batched quadrature kernel of dbestclient/ml/integral.py.
 *
 * numpy arrays are sequences of reals: a mesh is a `seq<real>` and a
 * groups-by-mesh block of predictions is a `Matrix`. Estimators are opaque
 * functions passed in as parameters.
 */
module Integral {
  import opened Options

  type Matrix = seq<seq<real>>

  /** The spacing `numpy.linspace(lb, ub, n, retstep=True)` reports. */
  function Step(lb: real, ub: real, n: nat): real
    requires n >= 2
  {
    (ub - lb) / (n - 1) as real
  }

  /** The uniform mesh of `numpy.linspace(lb, ub, n)`, both ends included. */
  function Linspace(lb: real, ub: real, n: nat): (grid: seq<real>)
    requires n >= 2
    ensures |grid| == n
    ensures grid[0] == lb && grid[n - 1] == ub
    ensures forall i :: 0 <= i < n - 1 ==> grid[i + 1] - grid[i] == Step(lb, ub, n)
    ensures lb <= ub ==> forall i, j :: 0 <= i <= j < n ==> grid[i] <= grid[j]
  {
    var step := Step(lb, ub, n);
    var grid := seq(n, i => lb + i as real * step);
    assert grid[n - 1] == lb + (n - 1) as real * step;
    MeshMonotone(lb, step, n, grid);
    grid
  }

  lemma MeshMonotone(lb: real, step: real, n: nat, grid: seq<real>)
    requires |grid| == n
    requires forall i :: 0 <= i < n ==> grid[i] == lb + i as real * step
    ensures step >= 0.0 ==> forall i, j :: 0 <= i <= j < n ==> grid[i] <= grid[j]
  {
    if step >= 0.0 {
      forall i, j | 0 <= i <= j < n ensures grid[i] <= grid[j] {
        assert grid[j] - grid[i] == (j - i) as real * step;
      }
    }
  }

  /** Sum of a sequence of reals (`numpy.sum`; over the reals the order does not matter). */
  function Sum(s: seq<real>): real
  {
    if s == [] then 0.0 else Sum(s[..|s| - 1]) + s[|s| - 1]
  }

  lemma {:induction false} SumAppend(a: seq<real>, b: seq<real>)
    ensures Sum(a + b) == Sum(a) + Sum(b)
  {
    if b == [] {
      assert a + b == a;
    } else {
      assert (a + b)[..|a + b| - 1] == a + b[..|b| - 1];
      SumAppend(a, b[..|b| - 1]);
    }
  }

  /** Sum of `n` copies of `c`. */
  lemma {:induction false} SumConstant(s: seq<real>, c: real)
    requires forall k :: 0 <= k < |s| ==> s[k] == c
    ensures Sum(s) == |s| as real * c
  {
    if s != [] {
      SumConstant(s[..|s| - 1], c);
    }
  }

  // ---------------------------------------------------------------------
  // approx_integrate (integral.py:25-43)
  // ---------------------------------------------------------------------

  /**
   * `approx_integrate` as written: the predictions of `func` over the mesh
   * are combined as `(0.5*(p[0]+p[-1]) + p[1:-1])*step`, which broadcasts a
   * scalar over the interior slice and never sums it.
   */
  function ApproxIntegrate(func: seq<real> -> seq<real>, lb: real, ub: real, n: nat): (r: seq<real>)
    requires n >= 2
    requires |func(Linspace(lb, ub, n))| == n
    ensures |r| == n - 2
    ensures var p, step := func(Linspace(lb, ub, n)), Step(lb, ub, n);
      forall k :: 0 <= k < n - 2 ==> r[k] == (0.5 * (p[0] + p[n - 1]) + p[k + 1]) * step
  {
    EndpointCombination(func(Linspace(lb, ub, n)), Step(lb, ub, n))
  }

  /** Line 43 on predictions `p`: the end-point term broadcast over the interior. */
  function EndpointCombination(p: seq<real>, step: real): (r: seq<real>)
    requires |p| >= 2
    ensures |r| == |p| - 2
    ensures forall k :: 0 <= k < |p| - 2 ==> r[k] == (0.5 * (p[0] + p[|p| - 1]) + p[k + 1]) * step
  {
    seq(|p| - 2, k requires 0 <= k < |p| - 2 => (0.5 * (p[0] + p[|p| - 1]) + p[k + 1]) * step)
  }

  /** The trapezoid weights on predictions `p`: half at each end, one inside. */
  function Trapezoid(p: seq<real>, step: real): real
    requires |p| >= 2
  {
    (0.5 * (p[0] + p[|p| - 1]) + Sum(p[1..|p| - 1])) * step
  }

  /**
   * The quadrature the docstring and the commented-out line 44 describe:
   * the trapezoidal rule, one scalar.
   */
  function TrapezoidIntegrate(func: seq<real> -> seq<real>, lb: real, ub: real, n: nat): (r: real)
    requires n >= 2
    requires |func(Linspace(lb, ub, n))| == n
    ensures var p := func(Linspace(lb, ub, n));
      r == (Sum(p[..n - 1]) + Sum(p[1..])) * 0.5 * Step(lb, ub, n)
  {
    var p := func(Linspace(lb, ub, n));
    TrapezoidForms(p);
    Trapezoid(p, Step(lb, ub, n))
  }

  /** The trapezoid weights equal the average of the left and right Riemann sums. */
  lemma TrapezoidForms(p: seq<real>)
    requires |p| >= 2
    ensures Sum(p[..|p| - 1]) + Sum(p[1..]) == p[0] + p[|p| - 1] + 2.0 * Sum(p[1..|p| - 1])
  {
    var n := |p|;
    assert p[..n - 1] == [p[0]] + p[1..n - 1];
    assert p[1..] == p[1..n - 1] + [p[n - 1]];
    SumAppend([p[0]], p[1..n - 1]);
    SumAppend(p[1..n - 1], [p[n - 1]]);
    assert Sum([p[0]]) == p[0] by { assert [p[0]][..0] == []; }
    assert Sum([p[n - 1]]) == p[n - 1] by { assert [p[n - 1]][..0] == []; }
  }

  /** The trapezoidal rule is exact on a constant integrand. */
  lemma TrapezoidExactOnConstant(func: seq<real> -> seq<real>, lb: real, ub: real, n: nat, c: real)
    requires n >= 2
    requires |func(Linspace(lb, ub, n))| == n
    requires forall k :: 0 <= k < n ==> func(Linspace(lb, ub, n))[k] == c
    ensures TrapezoidIntegrate(func, lb, ub, n) == c * (ub - lb)
  {
    var p := func(Linspace(lb, ub, n));
    SumConstant(p[1..n - 1], c);
    var step := Step(lb, ub, n);
    calc {
      TrapezoidIntegrate(func, lb, ub, n);
      (0.5 * (c + c) + (n - 2) as real * c) * step;
      (n - 1) as real * c * step;
      { assert (n - 1) as real * step == ub - lb; }
      c * (ub - lb);
    }
  }

  /**
   * On a constant integrand c every entry of the result as written is
   * 2·c·(ub - lb)/(n - 1); when c·(ub - lb) is not 0, that is the integral
   * only for n = 3.
   */
  lemma ApproxIntegrateOnConstant(func: seq<real> -> seq<real>, lb: real, ub: real, n: nat, c: real, k: nat)
    requires n >= 3
    requires |func(Linspace(lb, ub, n))| == n
    requires forall j :: 0 <= j < n ==> func(Linspace(lb, ub, n))[j] == c
    requires k < n - 2
    ensures ApproxIntegrate(func, lb, ub, n)[k] * (n - 1) as real == 2.0 * c * (ub - lb)
  {
    var step := Step(lb, ub, n);
    assert (n - 1) as real * step == ub - lb;
  }

  /**
   * The entries as written add up to the trapezoid value plus n - 3 further
   * copies of the end-point term ½(p[0] + p[n-1])·step.
   */
  lemma ApproxIntegrateTotal(func: seq<real> -> seq<real>, lb: real, ub: real, n: nat)
    requires n >= 2
    requires |func(Linspace(lb, ub, n))| == n
    ensures var p := func(Linspace(lb, ub, n));
      Sum(ApproxIntegrate(func, lb, ub, n))
      == TrapezoidIntegrate(func, lb, ub, n) + (n - 3) as real * (0.5 * (p[0] + p[n - 1])) * Step(lb, ub, n)
  {
    CombinationTotal(func(Linspace(lb, ub, n)), Step(lb, ub, n));
  }

  lemma CombinationTotal(p: seq<real>, step: real)
    requires |p| >= 2
    ensures Sum(EndpointCombination(p, step))
      == Trapezoid(p, step) + (|p| - 3) as real * (0.5 * (p[0] + p[|p| - 1])) * step
  {
    var q, h := p[1..|p| - 1], 0.5 * (p[0] + p[|p| - 1]);
    calc {
      Sum(EndpointCombination(p, step));
      { CombinationSum(p, step); }
      (|q| as real * h + Sum(q)) * step;
      { Regroup(|q| as real, (|p| - 3) as real, h, Sum(q), step); }
      (h + Sum(q)) * step + (|p| - 3) as real * h * step;
      Trapezoid(p, step) + (|p| - 3) as real * h * step;
    }
  }

  lemma CombinationSum(p: seq<real>, step: real)
    requires |p| >= 2
    ensures var q := p[1..|p| - 1];
      Sum(EndpointCombination(p, step)) == (|q| as real * (0.5 * (p[0] + p[|p| - 1])) + Sum(q)) * step
  {
    var q, h := p[1..|p| - 1], 0.5 * (p[0] + p[|p| - 1]);
    calc {
      Sum(EndpointCombination(p, step));
      { CombinationIsShifted(p, step); }
      Sum(ShiftScale(q, h, step));
      { SumShifted(q, h, step); }
      (|q| as real * h + Sum(q)) * step;
    }
  }

  /** Line 43 shifts every interior prediction by the end-point term and scales it by the step. */
  lemma CombinationIsShifted(p: seq<real>, step: real)
    requires |p| >= 2
    ensures EndpointCombination(p, step) == ShiftScale(p[1..|p| - 1], 0.5 * (p[0] + p[|p| - 1]), step)
  {
    var q := p[1..|p| - 1];
    var r, s := EndpointCombination(p, step), ShiftScale(q, 0.5 * (p[0] + p[|p| - 1]), step);
    forall k | 0 <= k < |r| ensures r[k] == s[k] {
      assert q[k] == p[k + 1];
    }
  }

  /** Each entry shifted by `h` and scaled by `step`. */
  function ShiftScale(q: seq<real>, h: real, step: real): (r: seq<real>)
    ensures |r| == |q|
    ensures forall k :: 0 <= k < |q| ==> r[k] == (h + q[k]) * step
  {
    if q == [] then [] else ShiftScale(q[..|q| - 1], h, step) + [(h + q[|q| - 1]) * step]
  }

  /** Summing `(h + q[k])·step` over k gives `(|q|·h + Sum(q))·step`. */
  lemma {:induction false} SumShifted(q: seq<real>, h: real, step: real)
    ensures Sum(ShiftScale(q, h, step)) == (|q| as real * h + Sum(q)) * step
  {
    if q != [] {
      var m := |q| - 1;
      var s := ShiftScale(q, h, step);
      assert s[..m] == ShiftScale(q[..m], h, step);
      SumShifted(q[..m], h, step);
      AddTerm(m as real, h, Sum(q[..m]), q[m], step);
    }
  }

  lemma AddTerm(m: real, h: real, t: real, x: real, step: real)
    ensures (m * h + t) * step + (h + x) * step == ((m + 1.0) * h + (t + x)) * step
  {
  }

  lemma Regroup(len: real, m: real, h: real, t: real, step: real)
    requires len == m + 1.0
    ensures (len * h + t) * step == (h + t) * step + m * h * step
  {
  }

  function ConstOne(points: seq<real>): seq<real>
  {
    seq(|points|, _ => 1.0)
  }

  /**
   * On four mesh points over [0, 3] with a constant integrand of 1, the
   * function as written returns two values, [2, 2], and neither they nor
   * their sum is the integral 3 that the trapezoidal rule gives.
   */
  lemma ApproxIntegrateIsNotScalar()
    ensures ApproxIntegrate(ConstOne, 0.0, 3.0, 4) == [2.0, 2.0]
    ensures TrapezoidIntegrate(ConstOne, 0.0, 3.0, 4) == 3.0
  {
    var p := ConstOne(Linspace(0.0, 3.0, 4));
    assert Step(0.0, 3.0, 4) == 1.0;
    TrapezoidExactOnConstant(ConstOne, 0.0, 3.0, 4, 1.0);
  }

  // ---------------------------------------------------------------------
  // prepare_reg_density_data (integral.py:69-87)
  // ---------------------------------------------------------------------

  /** `list(x_points) * k`: the mesh repeated once per group. */
  function RegXPoints(x: seq<real>, k: nat): (r: seq<real>)
    ensures |r| == k * |x|
  {
    if k == 0 then [] else x + RegXPoints(x, k - 1)
  }

  /** `[g for g in groups for _ in range(n)]`: each group repeated `n` times. */
  function RegGPoints<G>(groups: seq<G>, n: nat): (r: seq<G>)
    ensures |r| == |groups| * n
  {
    if groups == [] then [] else seq(n, _ => groups[0]) + RegGPoints(groups[1..], n)
  }

  lemma {:induction false} RegXPointsAt(x: seq<real>, k: nat, i: nat, j: nat)
    requires i < k && j < |x|
    ensures i * |x| + j < |RegXPoints(x, k)|
    ensures RegXPoints(x, k)[i * |x| + j] == x[j]
  {
    if i > 0 {
      RegXPointsAt(x, k - 1, i - 1, j);
      PeelRow(i, |x|);
    }
  }

  lemma {:induction false} RegGPointsAt<G>(groups: seq<G>, n: nat, i: nat, j: nat)
    requires i < |groups| && j < n
    ensures i * n + j < |RegGPoints(groups, n)|
    ensures RegGPoints(groups, n)[i * n + j] == groups[i]
  {
    if i > 0 {
      RegGPointsAt(groups[1..], n, i - 1, j);
      PeelRow(i, n);
    }
  }

  /**
   * Pairing the two flattened lists enumerates the groups-by-mesh cross
   * product in group-major order: position `i*n + j` holds the pair
   * (group i, mesh point j), and every position is such a pair.
   */
  lemma GroupMajorPairing<G>(groups: seq<G>, x: seq<real>, k: nat)
    requires k < |groups| * |x|
    ensures k / |x| < |groups| && k % |x| < |x|
    ensures RegGPoints(groups, |x|)[k] == groups[k / |x|]
    ensures RegXPoints(x, |groups|)[k] == x[k % |x|]
  {
    var n := |x|;
    var i, j := SplitIndex(k, |groups|, n);
    RegGPointsAt(groups, n, i, j);
    RegXPointsAt(x, |groups|, i, j);
  }

  /** A flat index below rows·n splits into a row and a column. */
  lemma SplitIndex(k: nat, rows: nat, n: nat) returns (i: nat, j: nat)
    requires k < rows * n
    ensures 0 < n && i == k / n && j == k % n
    ensures i < rows && j < n && k == i * n + j
  {
    i, j := k / n, k % n;
    QuotientBound(k, rows, n);
  }

  lemma QuotientBound(k: nat, rows: nat, n: nat)
    requires 0 < n && k < rows * n
    ensures k / n < rows
  {
    var i := k / n;
    assert k == i * n + k % n;
    if i >= rows {
      MulMonotone(rows, i, n);
    }
  }

  lemma MulMonotone(a: nat, b: nat, n: nat)
    requires a <= b
    ensures a * n <= b * n
  {
    assert b * n == a * n + (b - a) * n;
  }

  lemma PeelRow(rows: nat, cols: nat)
    requires rows > 0
    ensures rows * cols == cols + (rows - 1) * cols
  {
  }

  /** `numpy.array(flat).reshape(rows, cols)` on a flat list of the right size. */
  function Reshape(flat: seq<real>, rows: nat, cols: nat): (m: Matrix)
    requires |flat| == rows * cols
    ensures |m| == rows
    ensures forall i :: 0 <= i < rows ==> |m[i]| == cols
  {
    seq(rows, i requires 0 <= i < rows => ReshapeRow(flat, rows, cols, i))
  }

  /** Row i of the reshaped matrix: the i-th run of cols consecutive values. */
  function ReshapeRow(flat: seq<real>, rows: nat, cols: nat, i: nat): (row: seq<real>)
    requires |flat| == rows * cols && i < rows
    ensures |row| == cols
  {
    RowEnd(i, rows, cols);
    flat[i * cols .. i * cols + cols]
  }

  lemma RowEnd(i: nat, rows: nat, cols: nat)
    requires i < rows
    ensures i * cols + cols <= rows * cols
  {
    assert (i + 1) * cols == i * cols + cols;
    MulMonotone(i + 1, rows, cols);
  }

  lemma ReshapeAt(flat: seq<real>, rows: nat, cols: nat, i: nat, j: nat)
    requires |flat| == rows * cols
    requires i < rows && j < cols
    ensures i * cols + j < |flat|
    ensures Reshape(flat, rows, cols)[i][j] == flat[i * cols + j]
  {
    RowEnd(i, rows, cols);
  }

  /** What `prepare_reg_density_data` returns. */
  datatype Prepared = Prepared(density: Matrix, reg: Matrix, step: real)

  /** The flat list of regression predictions over the expanded point lists. */
  function RegOutput<G>(reg: (seq<G>, seq<real>) -> seq<real>, groups: seq<G>, grid: seq<real>): seq<real>
  {
    reg(RegGPoints(groups, |grid|), RegXPoints(grid, |groups|))
  }

  /**
   * `prepare_reg_density_data`: the density is asked once for the
   * unexpanded groups and mesh; the regression once for the expanded,
   * group-major point lists, and its flat output is reshaped into one row
   * per group. The reshape fails (`None`) when no regression is given or
   * its output has the wrong size.
   */
  function PrepareRegDensityData<G>(density: (seq<G>, seq<real>) -> Matrix, lb: real, ub: real, groups: seq<G>,
                                    reg: Option<(seq<G>, seq<real>) -> seq<real>>, n: nat): (r: Option<Prepared>)
    requires n >= 2
    ensures r.Some? <==> reg.Some? && |RegOutput(reg.value, groups, Linspace(lb, ub, n))| == |groups| * n
    ensures r.Some? ==> r.value.density == density(groups, Linspace(lb, ub, n))
    ensures r.Some? ==> r.value.step == Step(lb, ub, n)
    ensures r.Some? ==> |r.value.reg| == |groups| && forall i :: 0 <= i < |groups| ==> |r.value.reg[i]| == n
  {
    var grid := Linspace(lb, ub, n);
    var preDensity := density(groups, grid);
    match reg
    case None => None
    case Some(f) =>
      var flat := RegOutput(f, groups, grid);
      if |flat| == |groups| * n then Some(Prepared(preDensity, Reshape(flat, |groups|, n), Step(lb, ub, n)))
      else None
  }

  /**
   * Row i, column j of the reshaped regression output is the prediction the
   * regression made at the position of the pair (group i, mesh point j).
   */
  lemma PreparedRowIsGroup<G>(density: (seq<G>, seq<real>) -> Matrix, lb: real, ub: real, groups: seq<G>,
                              reg: (seq<G>, seq<real>) -> seq<real>, n: nat, i: nat, j: nat)
    requires n >= 2
    requires PrepareRegDensityData(density, lb, ub, groups, Some(reg), n).Some?
    requires i < |groups| && j < n
    ensures var grid, flat := Linspace(lb, ub, n), RegOutput(reg, groups, Linspace(lb, ub, n));
      && i * n + j < |flat|
      && PrepareRegDensityData(density, lb, ub, groups, Some(reg), n).value.reg[i][j] == flat[i * n + j]
      && RegGPoints(groups, n)[i * n + j] == groups[i]
      && RegXPoints(grid, |groups|)[i * n + j] == grid[j]
  {
    var grid := Linspace(lb, ub, n);
    var flat := RegOutput(reg, groups, grid);
    ReshapeAt(flat, |groups|, n, i, j);
    RegGPointsAt(groups, n, i, j);
    RegXPointsAt(grid, |groups|, i, j);
  }

  // ---------------------------------------------------------------------
  // approx_count, approx_sum, approx_avg (integral.py:90-108)
  // ---------------------------------------------------------------------

  /** `m[:-1, :]`: every row but the last. */
  function DropLastRow(m: Matrix): (r: Matrix)
    ensures |r| == if m == [] then 0 else |m| - 1
    ensures forall i :: 0 <= i < |r| ==> r[i] == m[i]
  {
    if m == [] then [] else m[..|m| - 1]
  }

  /** `numpy.sum(m, axis=1) * step`. */
  function ScaledRowSums(m: Matrix, step: real): (r: seq<real>)
    ensures |r| == |m|
    ensures forall i :: 0 <= i < |m| ==> r[i] == Sum(m[i]) * step
  {
    seq(|m|, i requires 0 <= i < |m| => Sum(m[i]) * step)
  }

  /**
   * `approx_count` as written: one value per row except the last, each the
   * step times the sum over every column of that row.
   */
  function ApproxCount(density: Matrix, step: real): (r: seq<real>)
    ensures |r| == if density == [] then 0 else |density| - 1
    ensures forall i :: 0 <= i < |r| ==> r[i] == Sum(density[i]) * step
  {
    ScaledRowSums(DropLastRow(density), step)
  }

  predicate SameShape(a: Matrix, b: Matrix)
  {
    |a| == |b| && forall i :: 0 <= i < |a| ==> |a[i]| == |b[i]|
  }

  /** `numpy.multiply` on two matrices of one shape. */
  function Multiply(a: Matrix, b: Matrix): (r: Matrix)
    requires SameShape(a, b)
    ensures SameShape(r, a)
    ensures forall i, j :: 0 <= i < |a| && 0 <= j < |a[i]| ==> r[i][j] == a[i][j] * b[i][j]
  {
    seq(|a|, i requires 0 <= i < |a| => seq(|a[i]|, j requires 0 <= j < |a[i]| => a[i][j] * b[i][j]))
  }

  /**
   * `approx_sum` as written: the elementwise product of density and
   * regression, then the same last-row drop and per-row sum as `approx_count`.
   */
  function ApproxSum(density: Matrix, reg: Matrix, step: real): (r: seq<real>)
    requires SameShape(density, reg)
    ensures |r| == |ApproxCount(density, step)|
    ensures forall i :: 0 <= i < |r| ==> r[i] == Sum(Multiply(density, reg)[i]) * step
  {
    ScaledRowSums(DropLastRow(Multiply(density, reg)), step)
  }

  function OnesLike(m: Matrix): (r: Matrix)
    ensures SameShape(r, m)
  {
    seq(|m|, i requires 0 <= i < |m| => seq(|m[i]|, _ => 1.0))
  }

  /** Multiplying by an all-ones matrix changes nothing. */
  lemma MultiplyByOnes(m: Matrix)
    ensures Multiply(m, OnesLike(m)) == m
  {
    var p := Multiply(m, OnesLike(m));
    forall i | 0 <= i < |m| ensures p[i] == m[i] {
      assert |p[i]| == |m[i]|;
    }
  }

  /** With a regression that predicts 1 everywhere, SUM is COUNT. */
  lemma SumWithOnesIsCount(density: Matrix, step: real)
    ensures ApproxSum(density, OnesLike(density), step) == ApproxCount(density, step)
  {
    MultiplyByOnes(density);
  }

  /** The last row (the last group's predictions) has no effect on COUNT. */
  lemma CountIgnoresLastRow(density: Matrix, last: seq<real>, other: seq<real>, step: real)
    ensures ApproxCount(density + [last], step) == ApproxCount(density + [other], step)
    ensures ApproxCount(density + [last], step) == ScaledRowSums(density, step)
  {
    assert DropLastRow(density + [last]) == density;
    assert DropLastRow(density + [other]) == density;
  }

  /** AVG per group, or `Undefined` where the COUNT is exactly zero. */
  datatype Average = Defined(value: real) | Undefined

  /**
   * `approx_avg`: entrywise SUM / COUNT; a zero COUNT gives `Undefined`
   * where numpy would give nan or inf.
   */
  function ApproxAvg(density: Matrix, reg: Matrix, step: real): (r: seq<Average>)
    requires SameShape(density, reg)
    ensures var c := ApproxCount(density, step);
      |r| == |c| && forall i :: 0 <= i < |r| ==> (r[i].Undefined? <==> c[i] == 0.0)
    ensures var c, s := ApproxCount(density, step), ApproxSum(density, reg, step);
      |r| == |s| && forall i :: 0 <= i < |r| && r[i].Defined? ==> r[i].value * c[i] == s[i]
  {
    var s, c := ApproxSum(density, reg, step), ApproxCount(density, step);
    seq(|c|, i requires 0 <= i < |c| => if c[i] == 0.0 then Undefined else Defined(s[i] / c[i]))
  }

  /** With a regression that predicts 1 everywhere, AVG is 1 wherever COUNT is not 0. */
  lemma AvgWithOnes(density: Matrix, step: real, i: nat)
    requires i < |ApproxCount(density, step)| && ApproxCount(density, step)[i] != 0.0
    ensures ApproxAvg(density, OnesLike(density), step)[i] == Defined(1.0)
  {
    SumWithOnesIsCount(density, step);
    var c := ApproxCount(density, step)[i];
    assert ApproxAvg(density, OnesLike(density), step)[i] == Defined(c / c);
    SelfRatio(c);
  }

  lemma SelfRatio(c: real)
    requires c != 0.0
    ensures c / c == 1.0
  {
  }

  /**
   * On a constant density c the rule as written gives c·n·step per group,
   * n/(n-1) times the integral c·(ub - lb), and one group fewer than it
   * was given.
   */
  lemma CountOfConstantDensity(density: Matrix, lb: real, ub: real, n: nat, c: real, i: nat)
    requires n >= 2
    requires forall g :: 0 <= g < |density| ==> |density[g]| == n
    requires forall g, j :: 0 <= g < |density| && 0 <= j < n ==> density[g][j] == c
    requires i < |density| - 1
    ensures |ApproxCount(density, Step(lb, ub, n))| == |density| - 1
    ensures ApproxCount(density, Step(lb, ub, n))[i] * (n - 1) as real == c * (ub - lb) * n as real
  {
    SumConstant(density[i], c);
    var step := Step(lb, ub, n);
    assert (n - 1) as real * step == ub - lb;
  }

  /** Two groups with density 1 on two points: the second group is lost. */
  lemma ApproxCountDropsLastGroup()
    ensures ApproxCount([[1.0, 1.0], [1.0, 1.0]], 1.0) == [2.0]
  {
    var m := [[1.0, 1.0], [1.0, 1.0]];
    SumConstant(m[0], 1.0);
  }

  /**
   * The left-endpoint rule the comment at line 91 describes:
   * for every group, the step times the sum over all columns but the last.
   */
  function LeftRiemannCount(density: Matrix, step: real): (r: seq<real>)
    ensures |r| == |density|
    ensures forall i :: 0 <= i < |r| ==>
      r[i] == (if density[i] == [] then 0.0 else Sum(density[i][..|density[i]| - 1]) * step)
  {
    seq(|density|, i requires 0 <= i < |density| =>
      if density[i] == [] then 0.0 else Sum(density[i][..|density[i]| - 1]) * step)
  }

  /**
   * The left-endpoint rule applied to `approx_sum`: for every group, the
   * step times the sum over all columns but the last of the product.
   */
  function LeftRiemannSum(density: Matrix, reg: Matrix, step: real): (r: seq<real>)
    requires SameShape(density, reg)
    ensures |r| == |density|
    ensures forall i :: 0 <= i < |r| ==>
      r[i] == (if density[i] == [] then 0.0 else Sum(Multiply(density, reg)[i][..|density[i]| - 1]) * step)
  {
    LeftRiemannCount(Multiply(density, reg), step)
  }

  /** With a regression that predicts 1 everywhere, the corrected SUM is the corrected COUNT. */
  lemma LeftRiemannSumWithOnes(density: Matrix, step: real)
    ensures LeftRiemannSum(density, OnesLike(density), step) == LeftRiemannCount(density, step)
  {
    MultiplyByOnes(density);
  }

  /** The left-endpoint rule is exact on a constant density, whatever n is. */
  lemma LeftRiemannExactOnConstant(density: Matrix, lb: real, ub: real, n: nat, c: real, i: nat)
    requires n >= 2
    requires forall g :: 0 <= g < |density| ==> |density[g]| == n
    requires forall g, j :: 0 <= g < |density| && 0 <= j < n ==> density[g][j] == c
    requires i < |density|
    ensures |LeftRiemannCount(density, Step(lb, ub, n))| == |density|
    ensures LeftRiemannCount(density, Step(lb, ub, n))[i] == c * (ub - lb)
  {
    SumConstant(density[i][..n - 1], c);
    var step := Step(lb, ub, n);
    assert (n - 1) as real * step == ub - lb;
  }
}
