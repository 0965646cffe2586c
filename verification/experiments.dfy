/** The JavaScript experiment helpers: generating a normalized matrix together
    with its materialized counterpart (`genMatrices`), and selecting the
    benchmark tasks to run (`getTasks`). */
module Experiments {
  import opened Results
  import opened Matrices
  import NormMatrixJs
  import TensorFromMatrix

  /** The foreign-key indicator `K`: row `i` has a single 1, in column `fk[i]`. */
  function Indicator(fk: seq<nat>, numCols: nat): (k: Matrix)
    requires forall i :: 0 <= i < |fk| ==> fk[i] < numCols
    ensures k.rows == |fk| && k.cols == numCols
    ensures forall i :: 0 <= i < |fk| ==> OneHotAt(k.cells[i], fk[i])
  {
    Mat(|fk|, numCols,
        seq(|fk|, i requires 0 <= i < |fk| => seq(numCols, j => if j == fk[i] then 1.0 else 0.0)))
  }

  /** Row `i` of `K·R` is the row of `R` that `K` selects: the join on the foreign key. */
  lemma JoinSelectsRows(fk: seq<nat>, r: Matrix)
    requires forall i :: 0 <= i < |fk| ==> fk[i] < r.rows
    ensures forall i :: 0 <= i < |fk| ==> Mul(Indicator(fk, r.rows), r).cells[i] == r.cells[fk[i]]
  {
    var k := Indicator(fk, r.rows);
    var kr := Mul(k, r);
    forall i | 0 <= i < |fk|
      ensures kr.cells[i] == r.cells[fk[i]]
    {
      forall j | 0 <= j < r.cols
        ensures kr.cells[i][j] == r.cells[fk[i]][j]
      {
        DotOneHot(k.cells[i], Col(r, j), fk[i]);
      }
    }
  }

  /** The three matrices of one synthetic experiment. */
  datatype Generated = Generated(matMatrix: Matrix, target: Matrix, normMatrix: NormMatrixJs.NormMatrix)

  /** `genMatrices(numRowsR, numColsS, tupRatio, featRatio)`. The random
      draws are parameters: `s` and `r` are the random matrices `S` and `R`,
      and `fk[i]` is the column chosen for the 1 in row `i` of `K`. */
  function GenMatrices(numRowsR: nat, numColsS: nat, tupRatio: nat, featRatio: nat,
                       s: Matrix, r: Matrix, fk: seq<nat>): (g: Generated)
    requires s.rows == numRowsR * tupRatio && s.cols == numColsS
    requires r.rows == numRowsR && r.cols == numColsS * featRatio
    requires |fk| == numRowsR * tupRatio && forall i :: 0 <= i < |fk| ==> fk[i] < numRowsR
    ensures g.matMatrix.rows == numRowsR * tupRatio
    ensures g.matMatrix.cols == numColsS + numColsS * featRatio
    ensures forall i :: 0 <= i < g.matMatrix.rows ==> g.matMatrix.cells[i] == s.cells[i] + r.cells[fk[i]]
    ensures g.target.rows == numRowsR * tupRatio && g.target.cols == 1
    ensures forall i :: 0 <= i < g.target.rows ==> g.target.cells[i] == [1.0]
    ensures g.normMatrix.morph.Built? && g.normMatrix.morph.s == s
    ensures g.normMatrix.morph.ks == [Indicator(fk, numRowsR)] && g.normMatrix.morph.rs == [r]
    ensures g.normMatrix.morph.sEmpty <==> numRowsR * tupRatio == 0 && numColsS == 0
  {
    var numRowsS := numRowsR * tupRatio;
    var numColsR := numColsS * featRatio;
    var k := Indicator(fk, numRowsR);
    var kr := Mul(k, r);
    JoinSelectsRows(fk, r);
    var matMatrix := StackCols(s, kr);
    var y := Fill(numRowsS, 1, 1.0);
    assert forall i :: 0 <= i < y.rows ==> y.cells[i] == [1.0];
    var norm := NormMatrixJs.New(Some(s), [k], [r], None).value;
    Generated(matMatrix, y, norm)
  }

  /** The normalized matrix stands for exactly the materialized matrix built
      beside it, so the benchmark's cross-representation checks compare equal things. */
  lemma NormalizedStandsForMaterialized(numRowsR: nat, numColsS: nat, tupRatio: nat, featRatio: nat,
                                        s: Matrix, r: Matrix, fk: seq<nat>)
    requires s.rows == numRowsR * tupRatio && s.cols == numColsS
    requires r.rows == numRowsR && r.cols == numColsS * featRatio
    requires |fk| == numRowsR * tupRatio && forall i :: 0 <= i < |fk| ==> fk[i] < numRowsR
    ensures var g := GenMatrices(numRowsR, numColsS, tupRatio, featRatio, s, r, fk);
            NormMatrixJs.Denote(g.normMatrix.morph) == Some(g.matMatrix)
  {
    var g := GenMatrices(numRowsR, numColsS, tupRatio, featRatio, s, r, fk);
    var m := g.normMatrix.morph;
    var k := Indicator(fk, numRowsR);
    var base := if m.sEmpty then NormMatrixJs.NoColumns(k.rows) else s;
    if m.sEmpty {
      assert s.cells == [] && base.cells == [];
    }
    assert base == s;
    assert NormMatrixJs.AppendJoins(s, [k], [r]) == NormMatrixJs.AppendJoins(StackCols(s, Mul(k, r)), [], []);
  }

  // ---------------------------------------------------------------------------
  // Task selection

  /** The benchmark runners `getTasks` knows. */
  datatype Runner =
    | ScalarAdditionRunner | ScalarMultiplicationRunner
    | LeftMatrixMultiplicationRunner | RightMatrixMultiplicationRunner
    | TransLeftMatrixMultiplicationRunner
    | RowWiseSumRunner | ColumnWiseSumRunner | ElementWiseSumRunner
    | LogisticRegressionRunner | LinearRegressionRunner | KMeansClusteringRunner

  datatype TaskPair = TaskPair(name: string, runner: Runner)

  /** `allTaskPairs`, in the order of its keys. */
  const AllTaskPairs: seq<TaskPair> := [
    TaskPair("scalarAddition", ScalarAdditionRunner),
    TaskPair("scalarMultiplication", ScalarMultiplicationRunner),
    TaskPair("leftMatrixMultiplication", LeftMatrixMultiplicationRunner),
    TaskPair("rightMatrixMultiplication", RightMatrixMultiplicationRunner),
    TaskPair("transLefttMatrixMultiplication", TransLeftMatrixMultiplicationRunner),
    TaskPair("rowWiseSum", RowWiseSumRunner),
    TaskPair("columnWiseSum", ColumnWiseSumRunner),
    TaskPair("elementWiseSum", ElementWiseSumRunner),
    TaskPair("logisticRegression", LogisticRegressionRunner),
    TaskPair("linearRegression", LinearRegressionRunner),
    TaskPair("kMeansClustering", KMeansClusteringRunner)
  ]

  /** `xs` is obtained from `ys` by deleting elements. */
  predicate SubsequenceOf<T(==)>(xs: seq<T>, ys: seq<T>)
    decreases |ys|
  {
    if |ys| == 0 then |xs| == 0
    else
      || SubsequenceOf(xs, ys[..|ys| - 1])
      || (|xs| > 0 && xs[|xs| - 1] == ys[|ys| - 1] && SubsequenceOf(xs[..|xs| - 1], ys[..|ys| - 1]))
  }

  /** The pairs of `pairs` whose name is selected, in their order in `pairs`. */
  function Select(pairs: seq<TaskPair>, selected: seq<string>): (r: seq<TaskPair>)
    ensures forall p :: p in r <==> p in pairs && p.name in selected
    ensures SubsequenceOf(r, pairs)
    decreases |pairs|
  {
    if |pairs| == 0 then []
    else
      var last := pairs[|pairs| - 1];
      var init := Select(pairs[..|pairs| - 1], selected);
      assert pairs == pairs[..|pairs| - 1] + [last];
      if last.name in selected then
        assert (init + [last])[..|init|] == init;
        init + [last]
      else init
  }

  /** Which tasks are selected depends only on which names are selected,
      not on their order or repetition in `tasks`. */
  lemma {:induction false} SelectDependsOnNamesOnly(pairs: seq<TaskPair>, selected: seq<string>, other: seq<string>)
    requires forall n :: n in selected <==> n in other
    ensures Select(pairs, selected) == Select(pairs, other)
    decreases |pairs|
  {
    if |pairs| > 0 {
      SelectDependsOnNamesOnly(pairs[..|pairs| - 1], selected, other);
    }
  }

  /** The loop of `getTasks` over a list of pairs: each pair in turn is kept
      when its name is selected. */
  method SelectTasks(pairs: seq<TaskPair>, selected: seq<string>) returns (taskPairs: seq<TaskPair>)
    ensures taskPairs == Select(pairs, selected)
    ensures forall p :: p in taskPairs <==> p in pairs && p.name in selected
  {
    taskPairs := [];
    var i := 0;
    while i < |pairs|
      invariant 0 <= i <= |pairs|
      invariant taskPairs == Select(pairs[..i], selected)
    {
      var key := pairs[i];
      assert pairs[..i + 1][..i] == pairs[..i];
      if key.name in selected {
        taskPairs := taskPairs + [key];
      }
      i := i + 1;
    }
    assert pairs[..i] == pairs;
  }

  /** The number of k-means centres `getTasks` takes from the data. */
  const CenterNumber: nat := 10

  /** `getTasks(matrices, tasks)`: the known tasks whose names are selected,
      in key order; unknown names are dropped. Before selecting, the k-means
      centres are cut from the first `CenterNumber` rows of the materialized
      matrix, which fails with an index error when it has fewer rows. */
  method GetTasks(matMatrix: Matrix, selected: seq<string>)
    returns (r: Result<seq<TaskPair>, TensorFromMatrix.MathError>)
    ensures r.Err? <==> matMatrix.rows < CenterNumber
    ensures r.Err? ==> r.error == TensorFromMatrix.IndexError
    ensures r.Ok? ==> forall p :: p in r.value <==> p in AllTaskPairs && p.name in selected
    ensures r.Ok? ==> SubsequenceOf(r.value, AllTaskPairs)
  {
    if matMatrix.rows < CenterNumber {
      return Err(TensorFromMatrix.IndexError);
    }
    var taskPairs := SelectTasks(AllTaskPairs, selected);
    r := Ok(taskPairs);
  }
}
