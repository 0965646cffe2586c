/** The JavaScript normalized matrix (`NormMatrix`) and the mathjs typed
    functions that route operators on it to its MorpheusDSL object.

    A MorpheusDSL object is foreign; it is recorded here by how it was made
    (`Morph`): built from `S`, `Ks`, `Rs`, or obtained by asking another
    object for a named operation. `Denote` gives such an object the meaning
    a normalized matrix stands for: its materialized matrix `[S | K1·R1 | ...]`,
    with each named operation applied through the `TensorFromMatrix` backend. */
module NormMatrixJs {
  import opened Results
  import opened Matrices
  import TensorFromMatrix

  /** Names of the MorpheusDSL operations the typed functions request. */
  datatype MorphOp =
    | ScalarAddition | ScalarMultiplication | ScalarExponentiation
    | LeftMatrixMultiplication | RightMatrixMultiplication
    | Transpose | RowSum | ColumnSum | ElementWiseSum

  /** An argument passed along with a requested operation. */
  datatype Operand = Number(x: real) | Dense(m: Matrix)

  /** A MorpheusDSL object. */
  datatype Morph =
    | Built(s: Matrix, ks: seq<Matrix>, rs: seq<Matrix>, sEmpty: bool)
    | Applied(receiver: Morph, op: MorphOp, args: seq<Operand>)

  datatype NormMatrix = NormMatrix(morph: Morph)

  /** The values the typed functions take and give: numbers, mathjs matrices,
      normalized matrices, a MorpheusDSL result returned without wrapping,
      and entry `(i, j)` read off such a result. */
  datatype JsValue =
    | Num(x: real)
    | Plain(m: Matrix)
    | Norm(n: NormMatrix)
    | Raw(raw: Morph)
    | Entry(of: Morph, i: nat, j: nat)

  /** What a typed function does with its arguments: either one of the
      `NormMatrix` signatures handles the call, or none does and the call is
      left to the signatures mathjs itself defines. */
  datatype Dispatch = Handled(v: JsValue) | MathJsSignature

  datatype JsError = TypeError

  /** `new NormMatrix(S, Ks, Rs, morph)`. A given `morph` is wrapped as it is
      and the other arguments are not looked at; otherwise `S` must be a
      matrix (`S.size()` fails on `null`). */
  function New(s: Option<Matrix>, ks: seq<Matrix>, rs: seq<Matrix>, morph: Option<Morph>): (r: Result<NormMatrix, JsError>)
    ensures morph.Some? ==> r == Ok(NormMatrix(morph.value))
    ensures morph.None? ==> (r.Ok? <==> s.Some?)
    ensures morph.None? && r.Ok? ==>
              r.value.morph.Built? && r.value.morph.s == s.value &&
              r.value.morph.ks == ks && r.value.morph.rs == rs &&
              (r.value.morph.sEmpty <==> s.value.rows == 0 && s.value.cols == 0)
  {
    if morph.Some? then Ok(NormMatrix(morph.value))
    else if s.None? then Err(TypeError)
    else
      var dims := [s.value.rows, s.value.cols];
      Ok(NormMatrix(Built(s.value, ks, rs, dims[0] == dims[1] && dims[1] == 0)))
  }

  /** A normalized matrix wrapping the object `n` returns for `op`. */
  function Forward(n: NormMatrix, op: MorphOp, args: seq<Operand>): NormMatrix {
    NormMatrix(Applied(n.morph, op, args))
  }

  function AddScalar(a: JsValue, b: JsValue): (r: Dispatch)
    ensures a.Norm? && b.Num? ==> r == Handled(Norm(Forward(a.n, ScalarAddition, [Number(b.x)])))
    ensures a.Num? && b.Norm? ==> r == Handled(Norm(Forward(b.n, ScalarAddition, [Number(a.x)])))
    ensures !(a.Norm? && b.Num?) && !(a.Num? && b.Norm?) ==> r == MathJsSignature
  {
    match (a, b)
    case (Norm(n), Num(x)) => Handled(Norm(NormMatrix(Applied(n.morph, ScalarAddition, [Number(x)]))))
    case (Num(x), Norm(n)) => Handled(Norm(NormMatrix(Applied(n.morph, ScalarAddition, [Number(x)]))))
    case _ => MathJsSignature
  }

  /** As written: subtracting a number forwards `scalarMultiplication`. */
  function Subtract(a: JsValue, b: JsValue): (r: Dispatch)
    ensures a.Norm? && b.Num? ==> r == Handled(Norm(Forward(a.n, ScalarMultiplication, [Number(b.x)])))
    ensures a.Num? && b.Norm? ==> r == Handled(Norm(Forward(b.n, ScalarMultiplication, [Number(a.x)])))
    ensures !(a.Norm? && b.Num?) && !(a.Num? && b.Norm?) ==> r == MathJsSignature
  {
    match (a, b)
    case (Norm(n), Num(x)) => Handled(Norm(NormMatrix(Applied(n.morph, ScalarMultiplication, [Number(x)]))))
    case (Num(x), Norm(n)) => Handled(Norm(NormMatrix(Applied(n.morph, ScalarMultiplication, [Number(x)]))))
    case _ => MathJsSignature
  }

  /** Subtraction as evidently intended: `a - x` adds `-x`, and `x - a`
      negates `a` and then adds `x`. */
  function SubtractCorrected(a: JsValue, b: JsValue): (r: Dispatch)
    ensures r.Handled? <==> (a.Norm? && b.Num?) || (a.Num? && b.Norm?)
    ensures !(a.Norm? && b.Num?) && !(a.Num? && b.Norm?) ==> r == MathJsSignature
  {
    match (a, b)
    case (Norm(n), Num(x)) => Handled(Norm(NormMatrix(Applied(n.morph, ScalarAddition, [Number(-x)]))))
    case (Num(x), Norm(n)) =>
      var negated := Applied(n.morph, ScalarMultiplication, [Number(-1.0)]);
      Handled(Norm(NormMatrix(Applied(negated, ScalarAddition, [Number(x)]))))
    case _ => MathJsSignature
  }

  /** Products: with a number, a wrapped `scalarMultiplication`; with a mathjs
      matrix, the unwrapped result of `rightMatrixMultiplication` when the
      matrix is on the left and of `leftMatrixMultiplication` when it is on
      the right. */
  function Multiply(a: JsValue, b: JsValue): (r: Dispatch)
    ensures a.Norm? && b.Num? ==> r == Handled(Norm(Forward(a.n, ScalarMultiplication, [Number(b.x)])))
    ensures a.Num? && b.Norm? ==> r == Handled(Norm(Forward(b.n, ScalarMultiplication, [Number(a.x)])))
    ensures a.Plain? && b.Norm? ==> r == Handled(Raw(Applied(b.n.morph, RightMatrixMultiplication, [Dense(a.m)])))
    ensures a.Norm? && b.Plain? ==> r == Handled(Raw(Applied(a.n.morph, LeftMatrixMultiplication, [Dense(b.m)])))
    ensures r.Handled? <==> (a.Norm? && (b.Num? || b.Plain?)) || (b.Norm? && (a.Num? || a.Plain?))
  {
    match (a, b)
    case (Norm(n), Num(x)) => Handled(Norm(NormMatrix(Applied(n.morph, ScalarMultiplication, [Number(x)]))))
    case (Num(x), Norm(n)) => Handled(Norm(NormMatrix(Applied(n.morph, ScalarMultiplication, [Number(x)]))))
    case (Plain(m), Norm(n)) => Handled(Raw(Applied(n.morph, RightMatrixMultiplication, [Dense(m)])))
    case (Norm(n), Plain(m)) => Handled(Raw(Applied(n.morph, LeftMatrixMultiplication, [Dense(m)])))
    case _ => MathJsSignature
  }

  /** Element-wise power forwards `scalarExponentiation` (which the backend
      implements as `exp`, ignoring the exponent). */
  function DotPow(a: JsValue, b: JsValue): (r: Dispatch)
    ensures r.Handled? <==> a.Norm? && b.Num?
    ensures r.Handled? ==> r.v == Norm(Forward(a.n, ScalarExponentiation, [Number(b.x)]))
  {
    match (a, b)
    case (Norm(n), Num(x)) => Handled(Norm(NormMatrix(Applied(n.morph, ScalarExponentiation, [Number(x)]))))
    case _ => MathJsSignature
  }

  function TransposeOf(a: JsValue): (r: Dispatch)
    ensures r.Handled? <==> a.Norm?
    ensures r.Handled? ==> r.v == Norm(Forward(a.n, Transpose, []))
  {
    match a
    case Norm(n) => Handled(Norm(NormMatrix(Applied(n.morph, Transpose, []))))
    case _ => MathJsSignature
  }

  /** Row sums: computed directly for a mathjs matrix, requested from the
      MorpheusDSL object (and returned unwrapped) for a normalized matrix. */
  function RowSumOf(a: JsValue): (r: Dispatch)
    ensures a.Plain? ==> (r.Handled? && r.v.Plain? && r.v.m.rows == a.m.rows && r.v.m.cols == 1 &&
                          forall i :: 0 <= i < a.m.rows ==> r.v.m.cells[i][0] == Sum(a.m.cells[i]))
    ensures a.Norm? ==> r == Handled(Raw(Applied(a.n.morph, RowSum, [])))
    ensures r.Handled? <==> a.Plain? || a.Norm?
  {
    match a
    case Plain(m) => Handled(Plain(TensorFromMatrix.RowSum(m)))
    case Norm(n) => Handled(Raw(Applied(n.morph, RowSum, [])))
    case _ => MathJsSignature
  }

  /** Column sums, like `RowSumOf`. */
  function ColSumOf(a: JsValue): (r: Dispatch)
    ensures a.Plain? ==> (r.Handled? && r.v.Plain? && r.v.m.rows == 1 && r.v.m.cols == a.m.cols &&
                          forall j :: 0 <= j < a.m.cols ==> r.v.m.cells[0][j] == Sum(Col(a.m, j)))
    ensures a.Norm? ==> r == Handled(Raw(Applied(a.n.morph, ColumnSum, [])))
    ensures r.Handled? <==> a.Plain? || a.Norm?
  {
    match a
    case Plain(m) => Handled(Plain(TensorFromMatrix.ColumnSum(m)))
    case Norm(n) => Handled(Raw(Applied(n.morph, ColumnSum, [])))
    case _ => MathJsSignature
  }

  /** The sum of all entries: entry `[0, 0]` of what the MorpheusDSL object returns. */
  function SumOf(a: JsValue): (r: Dispatch)
    ensures r.Handled? <==> a.Norm?
    ensures r.Handled? ==> r.v == Entry(Applied(a.n.morph, ElementWiseSum, []), 0, 0)
  {
    match a
    case Norm(n) => Handled(Entry(Applied(n.morph, ElementWiseSum, []), 0, 0))
    case _ => MathJsSignature
  }

  // ---------------------------------------------------------------------------
  // Meaning of a MorpheusDSL object

  /** The matrix with `r` rows and no columns. */
  function NoColumns(r: nat): (m: Matrix)
    ensures m.rows == r && m.cols == 0
  {
    Mat(r, 0, seq(r, i => []))
  }

  /** `acc` followed, to its right, by `K·R` for each pair; undefined when the
      lists differ in length or a shape does not fit. */
  function AppendJoins(acc: Matrix, ks: seq<Matrix>, rs: seq<Matrix>): (r: Option<Matrix>)
    ensures r.Some? ==> r.value.rows == acc.rows
    decreases |ks|
  {
    if |ks| != |rs| then None
    else if |ks| == 0 then Some(acc)
    else if ks[0].rows != acc.rows || ks[0].cols != rs[0].rows then None
    else AppendJoins(StackCols(acc, Mul(ks[0], rs[0])), ks[1..], rs[1..])
  }

  /** The materialized matrix of a built object: `[S | K1·R1 | ... ]`, without
      `S` when it is flagged empty. */
  function Materialize(s: Matrix, ks: seq<Matrix>, rs: seq<Matrix>, sEmpty: bool): Option<Matrix> {
    var base := if sEmpty && |ks| > 0 then NoColumns(ks[0].rows) else s;
    AppendJoins(base, ks, rs)
  }

  /** The matrix a MorpheusDSL object stands for, when it is defined. */
  function Denote(m: Morph): Option<Matrix> {
    match m
    case Built(s, ks, rs, sEmpty) => Materialize(s, ks, rs, sEmpty)
    case Applied(receiver, op, args) =>
      match Denote(receiver)
      case None => None
      case Some(a) => Apply(a, op, args)
  }

  /** One named backend operation on the matrix `a`. */
  function Apply(a: Matrix, op: MorphOp, args: seq<Operand>): Option<Matrix> {
    match op
    case ScalarAddition =>
      if |args| == 1 && args[0].Number? then Some(TensorFromMatrix.ScalarAddition(a, args[0].x)) else None
    case ScalarMultiplication =>
      if |args| == 1 && args[0].Number? then Some(TensorFromMatrix.ScalarMultiplication(a, args[0].x)) else None
    case ScalarExponentiation => None
    case LeftMatrixMultiplication =>
      if |args| == 1 && args[0].Dense? then Defined(TensorFromMatrix.LeftMatrixMultiplication(a, args[0].m)) else None
    case RightMatrixMultiplication =>
      if |args| == 1 && args[0].Dense? then Defined(TensorFromMatrix.RightMatrixMultiplication(a, args[0].m)) else None
    case Transpose => if args == [] then Some(TensorFromMatrix.Transpose(a)) else None
    case RowSum => if args == [] then Some(TensorFromMatrix.RowSum(a)) else None
    case ColumnSum => if args == [] then Some(TensorFromMatrix.ColumnSum(a)) else None
    case ElementWiseSum => if args == [] then Some(Mat(1, 1, [[TensorFromMatrix.ElementWiseSum(a)]])) else None
  }

  function Defined(r: Result<Matrix, TensorFromMatrix.MathError>): Option<Matrix> {
    if r.Ok? then Some(r.value) else None
  }

  /** The matrix a value stands for: itself for a mathjs matrix, the meaning
      of the MorpheusDSL object for a normalized matrix or an unwrapped result. */
  function Meaning(v: JsValue): Option<Matrix> {
    match v
    case Plain(m) => Some(m)
    case Norm(n) => Denote(n.morph)
    case Raw(raw) => Denote(raw)
    case _ => None
  }

  /** The number a value stands for: itself for a number, and for entry
      `(i, j)` read off a MorpheusDSL result, that entry of the matrix the
      result stands for. */
  function NumberMeaning(v: JsValue): Option<real> {
    match v
    case Num(x) => Some(x)
    case Entry(of, i, j) =>
      (match Denote(of)
       case Some(m) => if i < m.rows && j < m.cols then Some(m.cells[i][j]) else None
       case None => None)
    case _ => None
  }

  // ---------------------------------------------------------------------------
  // Properties

  /** Scalar addition and scalar multiplication do not depend on which side the number is on. */
  lemma ScalarOperandOrder(n: NormMatrix, x: real)
    ensures AddScalar(Norm(n), Num(x)) == AddScalar(Num(x), Norm(n))
    ensures Multiply(Norm(n), Num(x)) == Multiply(Num(x), Norm(n))
    ensures Subtract(Norm(n), Num(x)) == Multiply(Norm(n), Num(x))
  {
  }

  /** Every typed function on a normalized matrix stands for the same matrix as
      the corresponding mathjs operation on the materialized matrix `a`: the
      comparison the benchmark driver makes between the two representations. */
  lemma AgreesWithMaterialized(n: NormMatrix, a: Matrix, x: real, b: Matrix)
    requires Denote(n.morph) == Some(a)
    ensures Meaning(AddScalar(Norm(n), Num(x)).v) == Some(Shift(a, x))
    ensures Meaning(Multiply(Norm(n), Num(x)).v) == Some(Scale(a, x))
    ensures b.rows == a.cols ==> Meaning(Multiply(Norm(n), Plain(b)).v) == Some(Mul(a, b))
    ensures b.cols == a.rows ==> Meaning(Multiply(Plain(b), Norm(n)).v) == Some(Mul(b, a))
    ensures Meaning(TransposeOf(Norm(n)).v) == Some(Matrices.Transpose(a))
    ensures Meaning(RowSumOf(Norm(n)).v) == Meaning(RowSumOf(Plain(a)).v)
    ensures Meaning(ColSumOf(Norm(n)).v) == Meaning(ColSumOf(Plain(a)).v)
  {
  }

  /** `sum` of a normalized matrix standing for `a` is the sum of all the
      entries of `a`. */
  lemma SumAgreesWithMaterialized(n: NormMatrix, a: Matrix)
    requires Denote(n.morph) == Some(a)
    ensures NumberMeaning(SumOf(Norm(n)).v) == Some(Total(a))
  {
    TotalTranspose(a);
  }

  /** Transposing a normalized matrix twice stands for the matrix it started from. */
  lemma TransposeTwice(n: NormMatrix)
    requires Denote(n.morph).Some?
    ensures Meaning(TransposeOf(TransposeOf(Norm(n)).v).v) == Denote(n.morph)
  {
    var a := Denote(n.morph).value;
    var once := Applied(n.morph, Transpose, []);
    assert Denote(once) == Some(Matrices.Transpose(a));
    assert Denote(Applied(once, Transpose, [])) == Some(Matrices.Transpose(Matrices.Transpose(a)));
    TransposeInvolutive(a);
  }

  /** As written, `subtract(a, x)` stands for `x·a`. */
  lemma SubtractAsWrittenScales(n: NormMatrix, a: Matrix, x: real)
    requires Denote(n.morph) == Some(a)
    ensures Meaning(Subtract(Norm(n), Num(x)).v) == Some(Scale(a, x))
    ensures Meaning(Subtract(Num(x), Norm(n)).v) == Some(Scale(a, x))
  {
  }

  /** The 1 by 1 matrix `[[1]]`, built with no joins, minus 1 should be `[[0]]`;
      as written the subtraction yields `[[1]]`. */
  lemma SubtractAsWrittenCounterexample()
    ensures var n := NormMatrix(Built(Fill(1, 1, 1.0), [], [], false));
            Denote(n.morph) == Some(Fill(1, 1, 1.0)) &&
            Meaning(Subtract(Norm(n), Num(1.0)).v) == Some(Fill(1, 1, 1.0)) &&
            Fill(1, 1, 1.0) != Sub(Fill(1, 1, 1.0), Fill(1, 1, 1.0))
  {
    var one := Fill(1, 1, 1.0);
    SameEntries(Scale(one, 1.0), one);
    assert Sub(one, one).cells[0][0] == 0.0;
  }

  /** The corrected subtraction stands for the entry-wise difference, on either side. */
  lemma SubtractCorrectedMeaning(n: NormMatrix, a: Matrix, x: real)
    requires Denote(n.morph) == Some(a)
    ensures Meaning(SubtractCorrected(Norm(n), Num(x)).v) == Some(Sub(a, Fill(a.rows, a.cols, x)))
    ensures Meaning(SubtractCorrected(Num(x), Norm(n)).v) == Some(Sub(Fill(a.rows, a.cols, x), a))
  {
    var l := TensorFromMatrix.ScalarAddition(a, -x);
    SameEntries(l, Sub(a, Fill(a.rows, a.cols, x)));
    var negated := Applied(n.morph, ScalarMultiplication, [Number(-1.0)]);
    assert Denote(negated) == Some(TensorFromMatrix.ScalarMultiplication(a, -1.0));
    var r := TensorFromMatrix.ScalarAddition(TensorFromMatrix.ScalarMultiplication(a, -1.0), x);
    assert Denote(Applied(negated, ScalarAddition, [Number(x)])) == Some(r);
    SameEntries(r, Sub(Fill(a.rows, a.cols, x), a));
  }
}
