/** Gradient-descent linear regression (`NormalizedLinearRegression`), in its
    Python form (a regressor value with `fit` and `predict`) and in its
    JavaScript form (a `fit` loop). Both repeat the update
    `w ← w − γ·Xᵀ(X·w − y)` a fixed number of times, over exact reals. */
module LinReg {
  import opened Results
  import opened Matrices

  const DefaultIterations: int := 20
  const DefaultGamma: real := 0.000001

  /** Failures of the regression: predicting before training (the Python
      `RuntimeError`), and operands whose shapes do not fit (raised by the
      matrix library). */
  datatype FitError = NotTrained | ShapeMismatch

  /** The regressor: its settings and, once trained, its weights `w`. */
  datatype Regressor = Regressor(iterations: int, gamma: real, w: Option<Matrix>)

  /** `NormalizedLinearRegression(iterations, gamma)`: no weights yet. */
  function NewRegressor(iterations: int, gamma: real): (reg: Regressor)
    ensures reg.iterations == iterations && reg.gamma == gamma && reg.w.None?
  {
    Regressor(iterations, gamma, None)
  }

  /** `NormalizedLinearRegression()`: 20 iterations with step size 0.000001. */
  function DefaultRegressor(): (reg: Regressor)
    ensures reg.iterations == 20 && reg.gamma == 0.000001 && reg.w.None?
  {
    NewRegressor(DefaultIterations, DefaultGamma)
  }

  /** `X` is n×d, `y` is n×k and `w` is d×k. */
  predicate Conforms(x: Matrix, y: Matrix, w: Matrix) {
    y.rows == x.rows && w.rows == x.cols && y.cols == w.cols
  }

  /** One update `w − γ·(Xᵀ·(X·w − y))`. */
  function Step(x: Matrix, y: Matrix, w: Matrix, gamma: real): (next: Matrix)
    requires Conforms(x, y, w)
    ensures Conforms(x, y, next)
  {
    Sub(w, Scale(Mul(Transpose(x), Sub(Mul(x, w), y)), gamma))
  }

  /** `k` updates starting from `w`; the shape of `w` is kept throughout. */
  function Descend(x: Matrix, y: Matrix, w: Matrix, gamma: real, k: nat): (r: Matrix)
    requires Conforms(x, y, w)
    ensures Conforms(x, y, r)
    decreases k
  {
    if k == 0 then w else Step(x, y, Descend(x, y, w, gamma, k - 1), gamma)
  }

  /** The starting weights: `w_init` when given, the random draw otherwise. */
  function Start(wInit: Option<Matrix>, draw: Matrix): Matrix {
    if wInit.Some? then wInit.value else draw
  }

  /** What `fit` leaves behind: the regressor, whose weights are set even
      when the loop raises, and the exception raised, if any. */
  datatype Fitted = Fitted(reg: Regressor, raised: Option<FitError>)

  /** `fit(X, y, w_init)`. `draw` stands for `np.random.randn(d, 1)`, used
      only when `w_init` is omitted. The starting weights are stored before
      the loop; a non-positive iteration count runs no update, and otherwise
      the operands must conform. */
  function Fit(reg: Regressor, x: Matrix, y: Matrix, wInit: Option<Matrix>, draw: Matrix): (r: Fitted)
    requires draw.rows == x.cols && draw.cols == 1
    ensures r.reg.iterations == reg.iterations && r.reg.gamma == reg.gamma && r.reg.w.Some?
    ensures r.raised.Some? <==> reg.iterations > 0 && !Conforms(x, y, Start(wInit, draw))
    ensures r.raised.Some? ==> r.raised.value == ShapeMismatch && r.reg.w == Some(Start(wInit, draw))
    ensures reg.iterations <= 0 ==> r == Fitted(reg.(w := Some(Start(wInit, draw))), None)
    ensures r.raised.None? && reg.iterations > 0 ==>
              r.reg.w.value == Descend(x, y, Start(wInit, draw), reg.gamma, reg.iterations)
    ensures r.raised.None? && reg.iterations > 0 ==> Conforms(x, y, r.reg.w.value)
  {
    var w0 := Start(wInit, draw);
    if reg.iterations <= 0 then Fitted(reg.(w := Some(w0)), None)
    else if !Conforms(x, y, w0) then Fitted(reg.(w := Some(w0)), Some(ShapeMismatch))
    else Fitted(reg.(w := Some(Descend(x, y, w0, reg.gamma, reg.iterations))), None)
  }

  /** `predict(X)`: `X·w` once trained. */
  function Predict(reg: Regressor, x: Matrix): (r: Result<Matrix, FitError>)
    ensures reg.w.None? ==> r == Err(NotTrained)
    ensures reg.w.Some? ==> (r.Ok? <==> x.cols == reg.w.value.rows)
    ensures r.Ok? ==> r.value.rows == x.rows && r.value.cols == reg.w.value.cols
    ensures r.Ok? ==> forall i, j :: 0 <= i < x.rows && 0 <= j < reg.w.value.cols ==>
                        r.value.cells[i][j] == Dot(x.cells[i], Col(reg.w.value, j))
    ensures r.Err? && reg.w.Some? ==> r.error == ShapeMismatch
  {
    if reg.w.None? then Err(NotTrained)
    else if x.cols != reg.w.value.rows then Err(ShapeMismatch)
    else Ok(Mul(x, reg.w.value))
  }

  /** The JavaScript `fit(X, y, winit)`: transposes `X` once, then runs the
      update loop `iterations` times. */
  method FitLoop(x: Matrix, y: Matrix, wInit: Matrix, gamma: real, iterations: int) returns (r: Result<Matrix, FitError>)
    ensures iterations <= 0 ==> r == Ok(wInit)
    ensures iterations > 0 ==> (r.Ok? <==> Conforms(x, y, wInit))
    ensures r.Ok? && iterations > 0 ==> r.value == Descend(x, y, wInit, gamma, iterations)
  {
    if iterations > 0 && !Conforms(x, y, wInit) {
      return Err(ShapeMismatch);
    }
    var xTrans := Transpose(x);
    var w := wInit;
    var i := 0;
    while i < iterations
      invariant 0 <= i && (iterations > 0 ==> i <= iterations)
      invariant iterations > 0 ==> Conforms(x, y, w) && w == Descend(x, y, wInit, gamma, i)
      invariant iterations <= 0 ==> w == wInit
    {
      var newW := Mul(x, w);
      newW := Sub(newW, y);
      newW := Mul(xTrans, newW);
      w := Sub(w, Scale(newW, gamma));
      i := i + 1;
    }
    return Ok(w);
  }

  // ---------------------------------------------------------------------------
  // Properties

  /** Running `a` updates and then `b` more is running `a + b` updates. */
  lemma {:induction false} DescendComposes(x: Matrix, y: Matrix, w: Matrix, gamma: real, a: nat, b: nat)
    requires Conforms(x, y, w)
    ensures Descend(x, y, Descend(x, y, w, gamma, a), gamma, b) == Descend(x, y, w, gamma, a + b)
    decreases b
  {
    if b > 0 {
      DescendComposes(x, y, w, gamma, a, b - 1);
    }
  }

  /** Weights that already fit the data exactly are left unchanged by every number of updates. */
  lemma {:induction false} ExactFitIsFixed(x: Matrix, y: Matrix, w: Matrix, gamma: real, k: nat)
    requires Conforms(x, y, w) && Mul(x, w) == y
    ensures Descend(x, y, w, gamma, k) == w
    decreases k
  {
    if k > 0 {
      ExactFitIsFixed(x, y, w, gamma, k - 1);
      var residual := Sub(Mul(x, w), y);
      var g := Mul(Transpose(x), residual);
      forall i, j | 0 <= i < g.rows && 0 <= j < g.cols
        ensures g.cells[i][j] == 0.0
      {
        DotZero(Col(residual, j), Transpose(x).cells[i]);
        DotCommutes(Transpose(x).cells[i], Col(residual, j));
      }
      SameEntries(Step(x, y, w, gamma), w);
    }
  }

  /** With explicit initial weights, `fit` does not depend on the random draw. */
  lemma FitIgnoresDrawWhenInitialised(reg: Regressor, x: Matrix, y: Matrix, wInit: Matrix, draw1: Matrix, draw2: Matrix)
    requires draw1.rows == x.cols && draw1.cols == 1
    requires draw2.rows == x.cols && draw2.cols == 1
    ensures Fit(reg, x, y, Some(wInit), draw1) == Fit(reg, x, y, Some(wInit), draw2)
  {
  }

  /** Predicting with a freshly constructed regressor fails; after a fit it
      multiplies by the fitted weights, and after a fit that raised, by the
      starting weights it stored. */
  lemma PredictAfterFit(reg: Regressor, x: Matrix, y: Matrix, wInit: Option<Matrix>, draw: Matrix)
    requires draw.rows == x.cols && draw.cols == 1
    requires reg.iterations > 0
    ensures Predict(NewRegressor(reg.iterations, reg.gamma), x) == Err(NotTrained)
    ensures Fit(reg, x, y, wInit, draw).raised.None? ==>
              Predict(Fit(reg, x, y, wInit, draw).reg, x)
                == Ok(Mul(x, Descend(x, y, Start(wInit, draw), reg.gamma, reg.iterations)))
    ensures Fit(reg, x, y, wInit, draw).raised.Some? && x.cols == Start(wInit, draw).rows ==>
              Predict(Fit(reg, x, y, wInit, draw).reg, x) == Ok(Mul(x, Start(wInit, draw)))
  {
  }

  lemma Dot3(a: real, b: real, c: real, d: real, e: real, f: real)
    ensures Dot([a, b, c], [d, e, f]) == a * d + b * e + c * f
  {
    assert [c][1..] == [] && [f][1..] == [];
    assert Dot([c], [f]) == c * f;
    assert [b, c][1..] == [c] && [e, f][1..] == [f];
    assert Dot([b, c], [e, f]) == b * e + c * f;
    assert [a, b, c][1..] == [b, c] && [d, e, f][1..] == [e, f];
  }

  /** The design matrix, targets and initial weights of the worked example. */
  function ExampleX(): (x: Matrix) ensures x.rows == 3 && x.cols == 2 {
    Mat(3, 2, [[1.0, 0.0], [0.0, 1.0], [1.0, 1.0]])
  }

  function ExampleY(): (y: Matrix) ensures y.rows == 3 && y.cols == 1 {
    Mat(3, 1, [[1.0], [1.0], [2.0]])
  }

  function ExampleW(): (w: Matrix) ensures w.rows == 2 && w.cols == 1 {
    Mat(2, 1, [[0.0], [0.0]])
  }

  lemma ExampleResidual()
    ensures Col(Sub(Mul(ExampleX(), ExampleW()), ExampleY()), 0) == [-1.0, -1.0, -2.0]
  {
    var x, w := ExampleX(), ExampleW();
    var xw := Mul(x, w);
    forall i | 0 <= i < 3
      ensures xw.cells[i][0] == 0.0
    {
      DotZero(Col(w, 0), x.cells[i]);
      DotCommutes(Col(w, 0), x.cells[i]);
    }
  }

  lemma ExampleGradient()
    ensures var g := Mul(Transpose(ExampleX()), Sub(Mul(ExampleX(), ExampleW()), ExampleY()));
            g.rows == 2 && g.cols == 1 && g.cells[0][0] == -3.0 && g.cells[1][0] == -3.0
  {
    var residual := Sub(Mul(ExampleX(), ExampleW()), ExampleY());
    ExampleResidual();
    var xt := Transpose(ExampleX());
    assert xt.cells[0] == [1.0, 0.0, 1.0] && xt.cells[1] == [0.0, 1.0, 1.0];
    Dot3(1.0, 0.0, 1.0, -1.0, -1.0, -2.0);
    Dot3(0.0, 1.0, 1.0, -1.0, -1.0, -2.0);
  }

  /** X = [[1,0],[0,1],[1,1]], y = [1,1,2], w = [0,0], γ = 0.1: one update gives [0.3, 0.3]. */
  lemma WorkedExample()
    ensures Conforms(ExampleX(), ExampleY(), ExampleW())
    ensures Descend(ExampleX(), ExampleY(), ExampleW(), 0.1, 1) == Mat(2, 1, [[0.3], [0.3]])
  {
    var x, y, w := ExampleX(), ExampleY(), ExampleW();
    var expected: Matrix := Mat(2, 1, [[0.3], [0.3]]);
    var g := Mul(Transpose(x), Sub(Mul(x, w), y));
    ExampleGradient();
    var next := Sub(w, Scale(g, 0.1));
    assert next == Step(x, y, w, 0.1);
    SameEntries(next, expected);
  }
}
