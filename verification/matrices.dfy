/** Dense real matrices: the concrete meaning of the mathjs operations the
    JavaScript backend is built from, and the arithmetic of the regression
    workload. Arithmetic is exact (`real`), not IEEE floating point. */
module Matrices {

  /** A matrix given by its dimensions and its rows. The dimensions are kept
      explicitly so that a matrix with no rows still has a column count. */
  datatype Mat = Mat(rows: nat, cols: nat, cells: seq<seq<real>>)

  /** There are `rows` rows and each of them has `cols` entries. */
  predicate WellShaped(m: Mat) {
    |m.cells| == m.rows && forall i :: 0 <= i < |m.cells| ==> |m.cells[i]| == m.cols
  }

  type Matrix = m: Mat | WellShaped(m) witness Mat(0, 0, [])

  /** Sum of a vector. */
  function Sum(v: seq<real>): real {
    if |v| == 0 then 0.0 else v[0] + Sum(v[1..])
  }

  /** Inner product of two vectors of equal length. */
  function Dot(u: seq<real>, v: seq<real>): real
    requires |u| == |v|
  {
    if |u| == 0 then 0.0 else u[0] * v[0] + Dot(u[1..], v[1..])
  }

  /** Column `j` of `m`, as a vector. */
  function Col(m: Matrix, j: nat): (c: seq<real>)
    requires j < m.cols
    ensures |c| == m.rows
    ensures forall i :: 0 <= i < m.rows ==> c[i] == m.cells[i][j]
  {
    seq(m.rows, i requires 0 <= i < m.rows => m.cells[i][j])
  }

  /** The `r` by `c` matrix all of whose entries are `k`. */
  function Fill(r: nat, c: nat, k: real): (m: Matrix)
    ensures m.rows == r && m.cols == c
    ensures forall i, j :: 0 <= i < r && 0 <= j < c ==> m.cells[i][j] == k
  {
    Mat(r, c, seq(r, i => seq(c, j => k)))
  }

  function Transpose(m: Matrix): (t: Matrix)
    ensures t.rows == m.cols && t.cols == m.rows
    ensures forall i, j :: 0 <= i < t.rows && 0 <= j < t.cols ==> t.cells[i][j] == m.cells[j][i]
  {
    Mat(m.cols, m.rows, seq(m.cols, j requires 0 <= j < m.cols => Col(m, j)))
  }

  /** The matrix product `a·b`. */
  function Mul(a: Matrix, b: Matrix): (p: Matrix)
    requires a.cols == b.rows
    ensures p.rows == a.rows && p.cols == b.cols
    ensures forall i, j :: 0 <= i < p.rows && 0 <= j < p.cols ==> p.cells[i][j] == Dot(a.cells[i], Col(b, j))
  {
    Mat(a.rows, b.cols,
        seq(a.rows, i requires 0 <= i < a.rows =>
          seq(b.cols, j requires 0 <= j < b.cols => Dot(a.cells[i], Col(b, j)))))
  }

  /** Entry-wise sum of two matrices of one shape. */
  function Add(a: Matrix, b: Matrix): (s: Matrix)
    requires a.rows == b.rows && a.cols == b.cols
    ensures s.rows == a.rows && s.cols == a.cols
    ensures forall i, j :: 0 <= i < s.rows && 0 <= j < s.cols ==> s.cells[i][j] == a.cells[i][j] + b.cells[i][j]
  {
    Mat(a.rows, a.cols,
        seq(a.rows, i requires 0 <= i < a.rows =>
          seq(a.cols, j requires 0 <= j < a.cols => a.cells[i][j] + b.cells[i][j])))
  }

  /** Entry-wise difference of two matrices of one shape. */
  function Sub(a: Matrix, b: Matrix): (s: Matrix)
    requires a.rows == b.rows && a.cols == b.cols
    ensures s.rows == a.rows && s.cols == a.cols
    ensures forall i, j :: 0 <= i < s.rows && 0 <= j < s.cols ==> s.cells[i][j] == a.cells[i][j] - b.cells[i][j]
  {
    Mat(a.rows, a.cols,
        seq(a.rows, i requires 0 <= i < a.rows =>
          seq(a.cols, j requires 0 <= j < a.cols => a.cells[i][j] - b.cells[i][j])))
  }

  /** Every entry multiplied by the scalar `k`. */
  function Scale(m: Matrix, k: real): (s: Matrix)
    ensures s.rows == m.rows && s.cols == m.cols
    ensures forall i, j :: 0 <= i < s.rows && 0 <= j < s.cols ==> s.cells[i][j] == k * m.cells[i][j]
  {
    Mat(m.rows, m.cols,
        seq(m.rows, i requires 0 <= i < m.rows =>
          seq(m.cols, j requires 0 <= j < m.cols => k * m.cells[i][j])))
  }

  /** The scalar `k` added to every entry. */
  function Shift(m: Matrix, k: real): (s: Matrix)
    ensures s.rows == m.rows && s.cols == m.cols
    ensures forall i, j :: 0 <= i < s.rows && 0 <= j < s.cols ==> s.cells[i][j] == m.cells[i][j] + k
  {
    Mat(m.rows, m.cols,
        seq(m.rows, i requires 0 <= i < m.rows =>
          seq(m.cols, j requires 0 <= j < m.cols => m.cells[i][j] + k)))
  }

  /** The column of row sums. */
  function RowSums(m: Matrix): (s: Matrix)
    ensures s.rows == m.rows && s.cols == 1
    ensures forall i :: 0 <= i < m.rows ==> s.cells[i][0] == Sum(m.cells[i])
  {
    Mat(m.rows, 1, seq(m.rows, i requires 0 <= i < m.rows => [Sum(m.cells[i])]))
  }

  /** The row of column sums. */
  function ColSums(m: Matrix): (s: Matrix)
    ensures s.rows == 1 && s.cols == m.cols
    ensures forall j :: 0 <= j < m.cols ==> s.cells[0][j] == Sum(Col(m, j))
  {
    Mat(1, m.cols, [seq(m.cols, j requires 0 <= j < m.cols => Sum(Col(m, j)))])
  }

  /** The sums of each of a list of vectors. */
  function SumEach(vs: seq<seq<real>>): (s: seq<real>)
    ensures |s| == |vs| && forall i :: 0 <= i < |vs| ==> s[i] == Sum(vs[i])
  {
    seq(|vs|, i requires 0 <= i < |vs| => Sum(vs[i]))
  }

  /** The sum of all entries, row by row. */
  function Total(m: Matrix): real {
    Sum(SumEach(m.cells))
  }

  /** `a` on top of `b`. */
  function StackRows(a: Matrix, b: Matrix): (s: Matrix)
    requires a.cols == b.cols
    ensures s.rows == a.rows + b.rows && s.cols == a.cols
    ensures forall i :: 0 <= i < a.rows ==> s.cells[i] == a.cells[i]
    ensures forall i :: a.rows <= i < s.rows ==> s.cells[i] == b.cells[i - a.rows]
  {
    Mat(a.rows + b.rows, a.cols, a.cells + b.cells)
  }

  /** `a` to the left of `b`: each row of the result is a row of `a` followed by the row of `b`. */
  function StackCols(a: Matrix, b: Matrix): (s: Matrix)
    requires a.rows == b.rows
    ensures s.rows == a.rows && s.cols == a.cols + b.cols
    ensures forall i :: 0 <= i < s.rows ==> s.cells[i] == a.cells[i] + b.cells[i]
  {
    Mat(a.rows, a.cols + b.cols, seq(a.rows, i requires 0 <= i < a.rows => a.cells[i] + b.cells[i]))
  }

  /** The `nr` by `nc` block of `m` whose top-left entry is `m[r0][c0]`. */
  function Block(m: Matrix, r0: nat, nr: nat, c0: nat, nc: nat): (s: Matrix)
    requires r0 + nr <= m.rows && c0 + nc <= m.cols
    ensures s.rows == nr && s.cols == nc
    ensures forall i, j :: 0 <= i < nr && 0 <= j < nc ==> s.cells[i][j] == m.cells[r0 + i][c0 + j]
  {
    Mat(nr, nc, seq(nr, i requires 0 <= i < nr => m.cells[r0 + i][c0 .. c0 + nc]))
  }

  // ---------------------------------------------------------------------------
  // Properties

  /** Two matrices with the same shape and the same entries are the same matrix. */
  lemma SameEntries(a: Matrix, b: Matrix)
    requires a.rows == b.rows && a.cols == b.cols
    requires forall i, j :: 0 <= i < a.rows && 0 <= j < a.cols ==> a.cells[i][j] == b.cells[i][j]
    ensures a == b
  {
    forall i | 0 <= i < a.rows
      ensures a.cells[i] == b.cells[i]
    {
      assert |a.cells[i]| == |b.cells[i]| == a.cols;
    }
    assert a.cells == b.cells;
  }

  /** Transposing twice gives back the matrix. */
  lemma TransposeInvolutive(m: Matrix)
    ensures Transpose(Transpose(m)) == m
  {
    SameEntries(Transpose(Transpose(m)), m);
  }

  lemma {:induction false} DotCommutes(u: seq<real>, v: seq<real>)
    requires |u| == |v|
    ensures Dot(u, v) == Dot(v, u)
  {
    if |u| > 0 {
      DotCommutes(u[1..], v[1..]);
    }
  }

  /** `u` is the indicator vector of position `p`. */
  predicate OneHotAt(u: seq<real>, p: nat) {
    p < |u| && u[p] == 1.0 && forall k :: 0 <= k < |u| && k != p ==> u[k] == 0.0
  }

  lemma {:induction false} DotZero(u: seq<real>, v: seq<real>)
    requires |u| == |v|
    requires forall k :: 0 <= k < |u| ==> u[k] == 0.0
    ensures Dot(u, v) == 0.0
  {
    if |u| > 0 {
      DotZero(u[1..], v[1..]);
    }
  }

  /** Taking the inner product with an indicator vector selects one entry. */
  lemma {:induction false} DotOneHot(u: seq<real>, v: seq<real>, p: nat)
    requires |u| == |v| && OneHotAt(u, p)
    ensures Dot(u, v) == v[p]
  {
    if p == 0 {
      DotZero(u[1..], v[1..]);
    } else {
      assert OneHotAt(u[1..], p - 1);
      DotOneHot(u[1..], v[1..], p - 1);
    }
  }

  /** The transpose of a product is the product of the transposes in the other order. */
  lemma MulTranspose(a: Matrix, b: Matrix)
    requires a.cols == b.rows
    ensures Transpose(Mul(a, b)) == Mul(Transpose(b), Transpose(a))
  {
    var l := Transpose(Mul(a, b));
    var r := Mul(Transpose(b), Transpose(a));
    forall i, j | 0 <= i < l.rows && 0 <= j < l.cols
      ensures l.cells[i][j] == r.cells[i][j]
    {
      assert Transpose(b).cells[i] == Col(b, i);
      assert Col(Transpose(a), j) == a.cells[j];
      DotCommutes(a.cells[j], Col(b, i));
    }
    SameEntries(l, r);
  }

  /** Adding `k` and then `-k` to every entry gives back the matrix. */
  lemma ShiftInverse(m: Matrix, k: real)
    ensures Shift(Shift(m, k), -k) == m
  {
    SameEntries(Shift(Shift(m, k), -k), m);
  }

  /** Subtraction is addition of the negated operand. */
  lemma SubIsAddNegated(a: Matrix, b: Matrix)
    requires a.rows == b.rows && a.cols == b.cols
    ensures Sub(a, b) == Add(a, Scale(b, -1.0))
  {
    SameEntries(Sub(a, b), Add(a, Scale(b, -1.0)));
  }

  /** Adding `b` and then subtracting it gives back `a`. */
  lemma AddSubCancel(a: Matrix, b: Matrix)
    requires a.rows == b.rows && a.cols == b.cols
    ensures Sub(Add(a, b), b) == a
  {
    SameEntries(Sub(Add(a, b), b), a);
  }

  /** Column sums are the row sums of the transpose, transposed. */
  lemma ColSumsByTranspose(m: Matrix)
    ensures ColSums(m) == Transpose(RowSums(Transpose(m)))
  {
    var l := ColSums(m);
    var r := Transpose(RowSums(Transpose(m)));
    forall i, j | 0 <= i < l.rows && 0 <= j < l.cols
      ensures l.cells[i][j] == r.cells[i][j]
    {
      assert Transpose(m).cells[j] == Col(m, j);
    }
    SameEntries(l, r);
  }

  lemma {:induction false} SumOfPointwiseSum(u: seq<real>, v: seq<real>)
    requires |u| == |v|
    ensures Sum(seq(|u|, k requires 0 <= k < |u| => u[k] + v[k])) == Sum(u) + Sum(v)
  {
    var w := seq(|u|, k requires 0 <= k < |u| => u[k] + v[k]);
    if |u| > 0 {
      SumOfPointwiseSum(u[1..], v[1..]);
      assert w[1..] == seq(|u| - 1, k requires 0 <= k < |u| - 1 => u[1..][k] + v[1..][k]);
    }
  }

  /** The matrix without its first row. */
  function DropFirstRow(m: Matrix): (t: Matrix)
    requires m.rows > 0
    ensures t.rows == m.rows - 1 && t.cols == m.cols
    ensures forall i :: 0 <= i < t.rows ==> t.cells[i] == m.cells[i + 1]
  {
    Mat(m.rows - 1, m.cols, m.cells[1..])
  }

  /** Summing all entries row by row or column by column gives the same total. */
  lemma {:induction false} TotalTranspose(m: Matrix)
    ensures Total(Transpose(m)) == Total(m)
    decreases m.rows
  {
    var t := Transpose(m);
    if m.rows == 0 {
      assert forall j :: 0 <= j < t.rows ==> t.cells[j] == [];
      ZeroSums(SumEach(t.cells));
    } else {
      var rest := DropFirstRow(m);
      var tr := Transpose(rest);
      TotalTranspose(rest);
      assert m.cells[1..] == rest.cells;
      // Each column of `m` is its first entry followed by the column of `rest`.
      var heads := m.cells[0];
      var tails := SumEach(tr.cells);
      forall j | 0 <= j < m.cols
        ensures SumEach(t.cells)[j] == heads[j] + tails[j]
      {
        assert t.cells[j][1..] == tr.cells[j];
      }
      assert SumEach(t.cells) == seq(|heads|, k requires 0 <= k < |heads| => heads[k] + tails[k]);
      SumOfPointwiseSum(heads, tails);
      assert SumEach(m.cells)[1..] == SumEach(rest.cells);
    }
  }

  lemma {:induction false} ZeroSums(v: seq<real>)
    requires forall k :: 0 <= k < |v| ==> v[k] == 0.0
    ensures Sum(v) == 0.0
  {
    if |v| > 0 {
      ZeroSums(v[1..]);
    }
  }
}
