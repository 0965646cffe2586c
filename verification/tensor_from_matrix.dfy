/** The matrix-library interface the JavaScript backend hands to MorpheusDSL
    (class `TensorFromMatrix`), each method given its mathjs meaning. mathjs
    throws on operands whose dimensions do not fit; those calls end in `Err`. */
module TensorFromMatrix {
  import opened Results
  import opened Matrices

  /** The mathjs errors the interface can surface. */
  datatype MathError = DimensionError | IndexError

  function ScalarAddition(matrix: Matrix, number: real): (r: Matrix)
    ensures r.rows == matrix.rows && r.cols == matrix.cols
    ensures forall i, j :: 0 <= i < r.rows && 0 <= j < r.cols ==> r.cells[i][j] - number == matrix.cells[i][j]
  {
    Shift(matrix, number)
  }

  function ScalarMultiplication(matrix: Matrix, number: real): (r: Matrix)
    ensures r.rows == matrix.rows && r.cols == matrix.cols
    ensures forall i, j :: 0 <= i < r.rows && 0 <= j < r.cols ==> r.cells[i][j] == number * matrix.cells[i][j]
  {
    Scale(matrix, number)
  }

  /** `matrix·otherMatrix`. */
  function LeftMatrixMultiplication(matrix: Matrix, otherMatrix: Matrix): (r: Result<Matrix, MathError>)
    ensures r.Ok? <==> matrix.cols == otherMatrix.rows
    ensures r.Ok? ==> r.value.rows == matrix.rows && r.value.cols == otherMatrix.cols
    ensures r.Ok? ==> forall i, j :: 0 <= i < r.value.rows && 0 <= j < r.value.cols ==>
                        r.value.cells[i][j] == Dot(matrix.cells[i], Col(otherMatrix, j))
    ensures r.Err? ==> r.error == DimensionError
  {
    if matrix.cols == otherMatrix.rows then Ok(Mul(matrix, otherMatrix)) else Err(DimensionError)
  }

  /** `otherMatrix·matrix`: the operands of the product are swapped. */
  function RightMatrixMultiplication(matrix: Matrix, otherMatrix: Matrix): (r: Result<Matrix, MathError>)
    ensures r.Ok? <==> otherMatrix.cols == matrix.rows
    ensures r.Ok? ==> r.value.rows == otherMatrix.rows && r.value.cols == matrix.cols
    ensures r.Err? ==> r.error == DimensionError
  {
    if otherMatrix.cols == matrix.rows then Ok(Mul(otherMatrix, matrix)) else Err(DimensionError)
  }

  /** The `rows` by 1 matrix of row sums. */
  function RowSum(matrix: Matrix): (r: Matrix)
    ensures r.rows == matrix.rows && r.cols == 1
    ensures forall i :: 0 <= i < r.rows ==> r.cells[i][0] == Sum(matrix.cells[i])
  {
    RowSums(matrix)
  }

  /** The 1 by `cols` matrix of column sums. */
  function ColumnSum(matrix: Matrix): (r: Matrix)
    ensures r.rows == 1 && r.cols == matrix.cols
    ensures forall j :: 0 <= j < r.cols ==> r.cells[0][j] == Sum(Col(matrix, j))
  {
    ColSums(matrix)
  }

  /** The sum of all entries, a number. */
  function ElementWiseSum(matrix: Matrix): (r: real)
    ensures r == Total(Transpose(matrix))
  {
    TotalTranspose(matrix);
    Total(matrix)
  }

  /** Concatenation along the row axis: the rows of `otherMatrix` below those of `matrix`. */
  function RowWiseAppend(matrix: Matrix, otherMatrix: Matrix): (r: Result<Matrix, MathError>)
    ensures r.Ok? <==> matrix.cols == otherMatrix.cols
    ensures r.Ok? ==> r.value.rows == matrix.rows + otherMatrix.rows && r.value.cols == matrix.cols
    ensures r.Ok? ==> r.value.cells[..matrix.rows] == matrix.cells && r.value.cells[matrix.rows..] == otherMatrix.cells
    ensures r.Err? ==> r.error == DimensionError
  {
    if matrix.cols == otherMatrix.cols then Ok(StackRows(matrix, otherMatrix)) else Err(DimensionError)
  }

  /** Concatenation along the column axis: each row of `otherMatrix` after the row of `matrix`. */
  function ColumnWiseAppend(matrix: Matrix, otherMatrix: Matrix): (r: Result<Matrix, MathError>)
    ensures r.Ok? <==> matrix.rows == otherMatrix.rows
    ensures r.Ok? ==> r.value.rows == matrix.rows && r.value.cols == matrix.cols + otherMatrix.cols
    ensures r.Ok? ==> forall i :: 0 <= i < r.value.rows ==>
                        r.value.cells[i][..matrix.cols] == matrix.cells[i] &&
                        r.value.cells[i][matrix.cols..] == otherMatrix.cells[i]
    ensures r.Err? ==> r.error == DimensionError
  {
    if matrix.rows == otherMatrix.rows then Ok(StackCols(matrix, otherMatrix)) else Err(DimensionError)
  }

  function MatrixAddition(matrix: Matrix, otherMatrix: Matrix): (r: Result<Matrix, MathError>)
    ensures r.Ok? <==> matrix.rows == otherMatrix.rows && matrix.cols == otherMatrix.cols
    ensures r.Ok? ==> r.value.rows == matrix.rows && r.value.cols == matrix.cols
    ensures r.Ok? ==> forall i, j :: 0 <= i < r.value.rows && 0 <= j < r.value.cols ==>
                        r.value.cells[i][j] == matrix.cells[i][j] + otherMatrix.cells[i][j]
    ensures r.Err? ==> r.error == DimensionError
  {
    if matrix.rows == otherMatrix.rows && matrix.cols == otherMatrix.cols then Ok(Add(matrix, otherMatrix))
    else Err(DimensionError)
  }

  function Transpose(matrix: Matrix): (r: Matrix)
    ensures r.rows == matrix.cols && r.cols == matrix.rows
    ensures forall i, j :: 0 <= i < r.rows && 0 <= j < r.cols ==> r.cells[i][j] == matrix.cells[j][i]
  {
    Matrices.Transpose(matrix)
  }

  /** The block between rows `rowBeg` and `rowEnd` and columns `colBeg` and
      `colEnd`, both ends included. An index outside the matrix is an error;
      so is an empty range (see README). */
  function Splice(matrix: Matrix, rowBeg: int, rowEnd: int, colBeg: int, colEnd: int): (r: Result<Matrix, MathError>)
    ensures r.Ok? <==> 0 <= rowBeg <= rowEnd < matrix.rows && 0 <= colBeg <= colEnd < matrix.cols
    ensures r.Ok? ==> r.value.rows == rowEnd - rowBeg + 1 && r.value.cols == colEnd - colBeg + 1
    ensures r.Ok? ==> forall i, j :: 0 <= i < r.value.rows && 0 <= j < r.value.cols ==>
                        r.value.cells[i][j] == matrix.cells[rowBeg + i][colBeg + j]
    ensures r.Err? ==> r.error == IndexError
  {
    if 0 <= rowBeg <= rowEnd < matrix.rows && 0 <= colBeg <= colEnd < matrix.cols then
      Ok(Block(matrix, rowBeg, rowEnd - rowBeg + 1, colBeg, colEnd - colBeg + 1))
    else
      Err(IndexError)
  }

  function GetNumRows(matrix: Matrix): nat { matrix.rows }

  function GetNumCols(matrix: Matrix): nat { matrix.cols }

  // ---------------------------------------------------------------------------
  // Properties

  /** Right multiplication is left multiplication with the operands swapped. */
  lemma RightIsSwappedLeft(matrix: Matrix, otherMatrix: Matrix)
    ensures RightMatrixMultiplication(matrix, otherMatrix) == LeftMatrixMultiplication(otherMatrix, matrix)
  {
  }

  /** Right multiplication by `o` is left multiplication by `oᵀ` on the transpose, transposed back. */
  lemma RightMultiplicationByTransposition(matrix: Matrix, otherMatrix: Matrix)
    requires otherMatrix.cols == matrix.rows
    ensures LeftMatrixMultiplication(Transpose(matrix), Transpose(otherMatrix)).Ok?
    ensures RightMatrixMultiplication(matrix, otherMatrix).value
         == Transpose(LeftMatrixMultiplication(Transpose(matrix), Transpose(otherMatrix)).value)
  {
    MulTranspose(otherMatrix, matrix);
    TransposeInvolutive(Mul(otherMatrix, matrix));
  }

  /** The transpose swaps the reported dimensions, and transposing twice is the identity. */
  lemma TransposeShape(matrix: Matrix)
    ensures GetNumRows(Transpose(matrix)) == GetNumCols(matrix)
    ensures GetNumCols(Transpose(matrix)) == GetNumRows(matrix)
    ensures Transpose(Transpose(matrix)) == matrix
  {
    TransposeInvolutive(matrix);
  }

  /** Column sums are row sums computed on the transpose. */
  lemma ColumnSumIsTransposedRowSum(matrix: Matrix)
    ensures ColumnSum(matrix) == Transpose(RowSum(Transpose(matrix)))
  {
    ColSumsByTranspose(matrix);
  }

  /** Adding `x` and then `-x` gives back the matrix. */
  lemma ScalarAdditionInverse(matrix: Matrix, x: real)
    ensures ScalarAddition(ScalarAddition(matrix, x), -x) == matrix
  {
    ShiftInverse(matrix, x);
  }

  /** Adding `o` and then adding `o` scaled by -1 gives back the matrix. */
  lemma MatrixAdditionInverse(matrix: Matrix, otherMatrix: Matrix)
    requires matrix.rows == otherMatrix.rows && matrix.cols == otherMatrix.cols
    ensures MatrixAddition(matrix, otherMatrix).Ok?
    ensures MatrixAddition(MatrixAddition(matrix, otherMatrix).value, ScalarMultiplication(otherMatrix, -1.0))
         == Ok(matrix)
  {
    var s := Add(matrix, otherMatrix);
    SubIsAddNegated(s, otherMatrix);
    AddSubCancel(matrix, otherMatrix);
  }

  /** Row-wise append of two splices of adjacent row ranges is the splice of the union of the ranges. */
  lemma SpliceRowsAppend(matrix: Matrix, rowBeg: int, rowMid: int, rowEnd: int, colBeg: int, colEnd: int)
    requires 0 <= rowBeg <= rowMid < rowEnd < matrix.rows && 0 <= colBeg <= colEnd < matrix.cols
    ensures Splice(matrix, rowBeg, rowMid, colBeg, colEnd).Ok?
    ensures Splice(matrix, rowMid + 1, rowEnd, colBeg, colEnd).Ok?
    ensures RowWiseAppend(Splice(matrix, rowBeg, rowMid, colBeg, colEnd).value,
                          Splice(matrix, rowMid + 1, rowEnd, colBeg, colEnd).value)
         == Splice(matrix, rowBeg, rowEnd, colBeg, colEnd)
  {
    var top := Splice(matrix, rowBeg, rowMid, colBeg, colEnd).value;
    var bottom := Splice(matrix, rowMid + 1, rowEnd, colBeg, colEnd).value;
    var whole := Splice(matrix, rowBeg, rowEnd, colBeg, colEnd).value;
    var app := StackRows(top, bottom);
    forall i, j | 0 <= i < app.rows && 0 <= j < app.cols
      ensures app.cells[i][j] == whole.cells[i][j]
    {
      if i >= top.rows {
        assert app.cells[i] == bottom.cells[i - top.rows];
      }
    }
    SameEntries(app, whole);
  }
}
