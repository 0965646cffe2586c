# Normalized-matrix operators in Dafny

This project models the normalized-matrix ("Morpheus") layer of the
GraalVM polyglot benchmarking suite, and proves properties of it. A
normalized matrix stands for the join of a table `S` with tables `R1 … Rn`
through foreign-key indicator matrices `K1 … Kn`. Its materialized form is
`[S | K1·R1 | … | Kn·Rn]`. Linear-algebra operators on a normalized matrix
are handed to a MorpheusDSL object, which calls back into a matrix library
(the "avatar").

The project has seven modules:

- `Results` (`results.dfy`): the `Result` and `Option` types.
- `Matrices` (`matrices.dfy`): dense `real` matrices with explicit
  dimensions, the operations the rest needs, and their algebra (transpose
  is an involution, `(A·B)ᵀ = Bᵀ·Aᵀ`, the double-sum exchange, one-hot dot
  products).
- `TensorFromMatrix` (`tensor_from_matrix.dfy`): the JavaScript matrix
  library interface the MorpheusDSL object calls. Every modelled method has
  concrete semantics. mathjs's dimension and index errors are `Err` results.
- `NormMatrixJs` (`norm_matrix.dfy`): the JavaScript `NormMatrix`
  constructor and the mathjs typed functions that route operators to its
  MorpheusDSL object.
  - A MorpheusDSL object is a term: built from `S`, `Ks`, `Rs`, or a
    named operation applied to another object.
  - `Denote` gives each term the materialized matrix it stands for.
  - Each dispatch is proved to request the operation that, under
    `Denote`, agrees with the same operation on the materialized matrix.
    `Denote` is a reading of MorpheusDSL, not a model of its factorized
    rewrites.
- `Experiments` (`experiments.dfy`): `genMatrices` (the materialized matrix
  and the normalized matrix built from the same draws) and the `getTasks`
  filter.
- `LinReg` (`lin_reg.dfy`): gradient-descent linear regression,
  `w ← w − γ·Xᵀ(X·w − y)`, as in the Python `NormalizedLinearRegression`
  and the JavaScript `fit` loop.
- `Morpheus` (`morpheus.dfy`): the Python `NormalizedMatrix`.
  - A value is factorized (holds `S`, `Ks`, `Rs` and a MorpheusDSL table)
    or dense (holds a foreign matrix `mat` and calls its avatar).
  - The avatar and the table are not visible, so every foreign object is
    the record of the call that produced it (`Raw`).
  - Every operator's outcome is a Python return value or a raised
    exception.

Random draws in the source are parameters here: the foreign-key vector and
`S`, `R` in `genMatrices`, and the initial weights in `fit`.

A quirk the model keeps: a factorized value given a non-scalar operand
returns the `NotImplementedError` class from `__add__`, rather than raising
it or returning `NotImplemented` (`Morpheus.Add`).

## Model

| member | source | states |
|---|---|---|
| `Morpheus.New` | graalpython_benchmarking_suite/morpheus/morpheus.py:95-123 | a given `mat` yields a dense value with the given avatar. Without `mat`, construction succeeds exactly when `S` is foreign and an avatar is given; it keeps `S`, `Ks`, `Rs` and both flags, sets `Sempty` to false, and builds the table from them. Otherwise it raises `NotImplementedError` |
| `Morpheus.NormalizedTable` | graalpython_benchmarking_suite/morpheus/morpheus.py:88-93 | a table is built exactly when an avatar is given, otherwise `NotImplementedError` |
| `Morpheus.CallInner` | graalpython_benchmarking_suite/morpheus/morpheus.py:96-102 | a dense value calls the named avatar method with `mat` first, plus the extra argument only when one other than `None` is given. It raises `NotImplementedError` without `mat` and `AttributeError` without an avatar. A factorized value calls its own table |
| `Morpheus.DenseConstruction` | graalpython_benchmarking_suite/morpheus/morpheus.py:95-107 | with `mat`, the other constructor arguments are ignored, and `inner(op, arg)` is `avatar.op(mat)` or `avatar.op(mat, arg)` |
| `Morpheus.FactorizedConstruction` | graalpython_benchmarking_suite/morpheus/morpheus.py:108-120 | without `mat`, every forwarded operation is a call on the table built from the value's own `S`, `Ks`, `Rs` with `Sempty` false; with no avatar, construction raises |
| `Morpheus.MatAttribute` | graalpython_benchmarking_suite/morpheus/morpheus.py:107 | `other.mat` is the matrix of a dense value, `None` for a factorized one, and missing for any other value |
| `Morpheus.Add` | graalpython_benchmarking_suite/morpheus/morpheus.py:153-164 | on a factorized value, a scalar raises `NotImplementedError` and anything else returns the `NotImplementedError` class. On a dense value, a scalar forwards `scalarAddition` and a normalized matrix forwards `matrixAddition(other.mat)`; either result is a dense value with the receiver's avatar. Other operands have no `mat` |
| `Morpheus.ReflectedAdd` | graalpython_benchmarking_suite/morpheus/morpheus.py:171-172 | is exactly `__add__` with the receiver on the left, for every operand |
| `Morpheus.Mul` | graalpython_benchmarking_suite/morpheus/morpheus.py:186-203 | a scalar raises on a factorized value and forwards `scalarMultiplication` on a dense one. A normalized operand calls the table's `leftMatrixMultiplication(other.mat)` on a factorized value and `rightMatrixMultiplication` on a dense one. Anything else returns `NotImplemented`. Every normalized result is dense with the receiver's avatar |
| `Morpheus.ReflectedMul` | graalpython_benchmarking_suite/morpheus/morpheus.py:205-221 | scalars behave as in `__mul__`; a normalized operand fails on the missing `stamp` attribute; every other operand raises `NotImplementedError` |
| `Morpheus.MulMethod` | graalpython_benchmarking_suite/morpheus/morpheus.py:175 | `other.__mul__(-1)`: numbers multiply, a normalized matrix uses `__mul__`, and a foreign object multiplies on the host side |
| `Morpheus.Sub` | graalpython_benchmarking_suite/morpheus/morpheus.py:174-176 | a dense value minus a number `x` forwards `scalarAddition` with `-x`; factorized minus factorized raises; normalized results keep the receiver's avatar |
| `Morpheus.ReflectedSub` | graalpython_benchmarking_suite/morpheus/morpheus.py:180-182 | on a factorized value it raises; normalized results keep the receiver's avatar |
| `Morpheus.SubtractionAddsNegation` | graalpython_benchmarking_suite/morpheus/morpheus.py:174-176 | `a - b` is `a + (b * -1)`. For two dense values it is a `matrixAddition` with the avatar's `-1` multiple of `b`. With a factorized side it never yields a normalized matrix |
| `Morpheus.ReflectedSubIgnoresOperand` | graalpython_benchmarking_suite/morpheus/morpheus.py:180-182 | `__rsub__` gives the same outcome for every operand; on a dense value it is `self + self * -1` |
| `Morpheus.Pow` | graalpython_benchmarking_suite/morpheus/morpheus.py:139-142 | `__pow__` forwards `scalarMultiplication` with the exponent, 2.71 when none is passed, on both variants and wraps the result with the receiver's avatar |
| `Morpheus.ReflectedPow` | graalpython_benchmarking_suite/morpheus/morpheus.py:149-150 | `__rpow__` is `__pow__` with the receiver as the base, 2.71 included as the default |
| `Morpheus.PowDefaultsToExponent` | graalpython_benchmarking_suite/morpheus/morpheus.py:140-150 | calling `__pow__`, `__rpow__` or `__ipow__` without an argument is the same as passing 2.71 |
| `Morpheus.InnerOf` | graalpython_benchmarking_suite/morpheus/morpheus.py:231 | `other.inner("invert")` works only on a normalized matrix; on anything else it raises `AttributeError` |
| `Morpheus.Truediv` | graalpython_benchmarking_suite/morpheus/morpheus.py:230-233 | dividing by a non-normalized value raises. For two dense values, `a / b` forwards `rightMatrixMultiplication` with the avatar's inverse of `b`. A factorized receiver uses `leftMatrixMultiplication`. Results keep the receiver's avatar |
| `Morpheus.DivisionMultipliesByInverse` | graalpython_benchmarking_suite/morpheus/morpheus.py:230-233 | `a / b` is `a * wrap(b.inner("invert"))`, with the inverse wrapped with `a`'s avatar |
| `Morpheus.TruedivMethod` | graalpython_benchmarking_suite/morpheus/morpheus.py:235 | `other.__truediv__(self)`: a normalized matrix divides, a number declines, and a foreign object divides on the host side |
| `Morpheus.ReflectedTruediv` | graalpython_benchmarking_suite/morpheus/morpheus.py:234-235 | `x / a` with normalized `x` is `x.__truediv__(a)`, so a normalized result carries the avatar of `x`, not of the receiver; a number declines |
| `Morpheus.InplaceTruediv` | graalpython_benchmarking_suite/morpheus/morpheus.py:236-237 | in-place division raises `NotImplementedError` for every operand |
| `Morpheus.Sum` | graalpython_benchmarking_suite/morpheus/morpheus.py:136-137 | `sum` raises `NotImplementedError` for every argument |
| `Morpheus.InplaceAdd` | graalpython_benchmarking_suite/morpheus/morpheus.py:167-170 | `+=` never succeeds: it passes on the addition's exception, or fails on the missing `normalizedTable` |
| `Morpheus.InplacePow` | graalpython_benchmarking_suite/morpheus/morpheus.py:144-147 | `**=` never succeeds, in the same way |
| `Morpheus.InplaceMul` | graalpython_benchmarking_suite/morpheus/morpheus.py:223-228 | `*=` declines exactly the non-scalars and fails on `normalizedTable` for exactly the scalars |
| `Morpheus.Transposed` | graalpython_benchmarking_suite/morpheus/morpheus.py:239-248 | a factorized value yields a factorized value with the same `S`, `Ks`, `Rs` and avatar. Its `inner` is the table's `transpose()`, and `is_transposed` and `foreign_backend` are at their defaults. Without an avatar it raises. A dense value yields the avatar's `transpose(mat)`, wrapped with the same avatar |
| `Morpheus.TransposeForgetsOrientation` | graalpython_benchmarking_suite/morpheus/morpheus.py:241-245 | the transpose of a factorized value does not depend on its `is_transposed` or `foreign_backend` flags |
| `Morpheus.TransposeTwice` | graalpython_benchmarking_suite/morpheus/morpheus.py:241-245 | transposing twice keeps `S`, `Ks`, `Rs` and the avatar, and asks the table for two transposes |
| `Morpheus.OperatorsKeepAvatar` | graalpython_benchmarking_suite/morpheus/morpheus.py:140-237 | every normalized matrix returned by `+`, `-`, `*`, `**` (both sides) and `/` (receiver on the left) is dense, holds a matrix, and carries the receiver's avatar |
| `Morpheus.Order` | graalpython_benchmarking_suite/morpheus/morpheus.py:69 | `order` is 1 exactly when only the first input is normalized and -1 exactly when only the second is |
| `Morpheus.ArrayUfunc` | graalpython_benchmarking_suite/morpheus/morpheus.py:51-76 | unsupported ufuncs, methods other than `__call__` and input counts other than two are declined. Order 1 uses the forward method of the first input and order -1 the reflected method of the second. Order 0 handles only `np.multiply`, through the first input's `__mul__`. Keyword arguments are passed on to a method that accepts none, so they raise `TypeError` once the method is found; `np.divide` fails on the method lookup first |
| `Morpheus.UfuncRejectsKeywords` | graalpython_benchmarking_suite/morpheus/morpheus.py:70-76 | with keyword arguments the entry point only declines or raises; every call that returned a result without them raises with them |
| `Morpheus.UfuncMatchesOperators` | graalpython_benchmarking_suite/morpheus/morpheus.py:51-73 | with one normalized operand, `np.add`, `np.subtract`, `np.multiply` and `np.power` reach the same method as the operator, on either side |
| `Morpheus.UfuncWithoutOrder` | graalpython_benchmarking_suite/morpheus/morpheus.py:69-76 | with both or neither input normalized, only `np.multiply` is handled |
| `Morpheus.DivisionUfuncNeverDivides` | graalpython_benchmarking_suite/morpheus/morpheus.py:53-76 | `np.divide` with one normalized operand raises `AttributeError` (no `__div__` or `__rdiv__` exists). With two it is declined. `a / b` on two dense values does divide |
| `NormMatrixJs.New` | graalJS_benchmarking_suite/morpheus.js:24-37 | a given `morph` is wrapped as it is; otherwise the object is built from `S`, `Ks`, `Rs`, with `sEmpty` exactly when `S` is 0×0 |
| `NormMatrixJs.AddScalar` | graalJS_benchmarking_suite/morpheus.js:54-63 | a number on either side forwards `scalarAddition` and wraps the result; other signatures are left to mathjs |
| `NormMatrixJs.Subtract` | graalJS_benchmarking_suite/morpheus.js:65-74 | a number on either side forwards `scalarMultiplication` (as written) |
| `NormMatrixJs.Multiply` | graalJS_benchmarking_suite/morpheus.js:76-93 | a number on either side forwards `scalarMultiplication` and wraps the result. `Matrix × NormMatrix` returns the unwrapped `rightMatrixMultiplication`, and `NormMatrix × Matrix` the unwrapped `leftMatrixMultiplication`. Exactly these four signatures are handled |
| `NormMatrixJs.DotPow` | graalJS_benchmarking_suite/morpheus.js:95-100 | only `NormMatrix, number` is handled, forwarding `scalarExponentiation` |
| `NormMatrixJs.TransposeOf` | graalJS_benchmarking_suite/morpheus.js:102-111 | only a `NormMatrix` is handled; it wraps the object's `transpose()` |
| `NormMatrixJs.RowSumOf` | graalJS_benchmarking_suite/morpheus.js:113-123 | a mathjs matrix gives its r×1 row sums; a `NormMatrix` returns the object's `rowSum()` unwrapped |
| `NormMatrixJs.ColSumOf` | graalJS_benchmarking_suite/morpheus.js:125-134 | a mathjs matrix gives its 1×c column sums; a `NormMatrix` returns the object's `columnSum()` unwrapped |
| `NormMatrixJs.SumOf` | graalJS_benchmarking_suite/morpheus.js:136-142 | only a `NormMatrix` is handled; the result is entry (0, 0) of the object's `elementWiseSum()` |
| `NormMatrixJs.ScalarOperandOrder` | graalJS_benchmarking_suite/morpheus.js:54-84 | scalar addition and multiplication do not depend on operand order, and `subtract` with a number is the scalar product |
| `NormMatrixJs.SumAgreesWithMaterialized` | graalJS_benchmarking_suite/morpheus.js:136-142 | on a normalized matrix standing for `A`, `sum` gives a number entry whose value is the total of the entries of `A` |
| `NormMatrixJs.AgreesWithMaterialized` | graalJS_benchmarking_suite/morpheus.js:54-134 | on a normalized matrix standing for `A`, the results stand for the same operations on `A`: scalar add, scalar multiply, both matrix products, transpose, row sums and column sums |
| `NormMatrixJs.TransposeTwice` | graalJS_benchmarking_suite/morpheus.js:102-111 | transposing twice stands for the original matrix |
| `NormMatrixJs.SubtractAsWrittenScales` | graalJS_benchmarking_suite/morpheus.js:65-74 | as written, `A - x` and `x - A` both stand for `x·A` |
| `NormMatrixJs.SubtractAsWrittenCounterexample` | graalJS_benchmarking_suite/morpheus.js:66-69 | `[[1]] - 1` stands for `[[1]]`, not `[[0]]` |
| `NormMatrixJs.SubtractCorrected` | graalJS_benchmarking_suite/morpheus.js:65-74 | the corrected subtraction handles the same two signatures |
| `NormMatrixJs.SubtractCorrectedMeaning` | graalJS_benchmarking_suite/morpheus.js:65-74 | the corrected `A - x` stands for the entry-wise `A − x`, and `x - A` for `x − A` |
| `TensorFromMatrix.ScalarAddition` | graalJS_benchmarking_suite/morpheus.js:162-165 | same shape; each entry is increased by the number |
| `TensorFromMatrix.ScalarMultiplication` | graalJS_benchmarking_suite/morpheus.js:167-170 | same shape; each entry is multiplied by the number |
| `TensorFromMatrix.LeftMatrixMultiplication` | graalJS_benchmarking_suite/morpheus.js:177-180 | `matrix · other`, defined exactly when the inner dimensions agree, otherwise a dimension error |
| `TensorFromMatrix.RightMatrixMultiplication` | graalJS_benchmarking_suite/morpheus.js:182-185 | `other · matrix`, defined exactly when the inner dimensions agree, otherwise a dimension error |
| `TensorFromMatrix.RightIsSwappedLeft` | graalJS_benchmarking_suite/morpheus.js:177-185 | right multiplication is left multiplication with the operands swapped |
| `TensorFromMatrix.RightMultiplicationByTransposition` | graalJS_benchmarking_suite/morpheus.js:182-185 | `other · matrix` is the transpose of `matrixᵀ · otherᵀ` |
| `TensorFromMatrix.RowSum` | graalJS_benchmarking_suite/morpheus.js:191-194 | r×1; entry `i` is the sum of row `i` |
| `TensorFromMatrix.ColumnSum` | graalJS_benchmarking_suite/morpheus.js:196-199 | 1×c; entry `j` is the sum of column `j` |
| `TensorFromMatrix.ColumnSumIsTransposedRowSum` | graalJS_benchmarking_suite/morpheus.js:191-199 | column sums are the transposed row sums of the transpose |
| `TensorFromMatrix.ElementWiseSum` | graalJS_benchmarking_suite/morpheus.js:201-203 | the sum of all entries, the same whether taken by rows or by columns |
| `TensorFromMatrix.RowWiseAppend` | graalJS_benchmarking_suite/morpheus.js:205-208 | defined exactly when the column counts agree; the rows of `matrix` followed by those of `other` |
| `TensorFromMatrix.ColumnWiseAppend` | graalJS_benchmarking_suite/morpheus.js:210-213 | defined exactly when the row counts agree; each row is the row of `matrix` followed by that of `other` |
| `TensorFromMatrix.MatrixAddition` | graalJS_benchmarking_suite/morpheus.js:215-218 | defined exactly when the shapes agree; entry-wise sum |
| `TensorFromMatrix.Transpose` | graalJS_benchmarking_suite/morpheus.js:220-223 | dimensions swapped; entry `(i, j)` is entry `(j, i)` |
| `TensorFromMatrix.TransposeShape` | graalJS_benchmarking_suite/morpheus.js:220-238 | `getNumRows` and `getNumCols` of the transpose swap, and transposing twice gives back the matrix |
| `TensorFromMatrix.ScalarAdditionInverse` | graalJS_benchmarking_suite/morpheus.js:162-165 | adding `x` and then `-x` gives back the matrix |
| `TensorFromMatrix.MatrixAdditionInverse` | graalJS_benchmarking_suite/morpheus.js:215-218 | adding `B` and then `-1·B` gives back the matrix |
| `TensorFromMatrix.Splice` | graalJS_benchmarking_suite/morpheus.js:225-230 | inclusive bounds: defined exactly when `0 <= rowBeg <= rowEnd < rows` and likewise for columns. The result is `(rowEnd−rowBeg+1) × (colEnd−colBeg+1)` with entry `(i, j)` equal to `matrix[rowBeg+i][colBeg+j]`. Otherwise an index error |
| `TensorFromMatrix.SpliceRowsAppend` | graalJS_benchmarking_suite/morpheus.js:205-230 | two adjacent row splices appended row-wise are the splice of their union |
| `Experiments.Indicator` | graalJS_benchmarking_suite/morpheus.js:441-444 | `K` has one row per foreign key and one column per row of `R`, with a single 1 in each row at the key's column |
| `Experiments.JoinSelectsRows` | graalJS_benchmarking_suite/morpheus.js:441-446 | row `i` of `K·R` is row `fk[i]` of `R` |
| `Experiments.GenMatrices` | graalJS_benchmarking_suite/morpheus.js:432-463 | `matMatrix` is `(nR·TR) × (dS + dS·FR)`, row `i` being row `i` of `S` followed by row `fk[i]` of `R`. The target is a column of ones. The normalized matrix is built from `S`, `[K]`, `[R]` |
| `Experiments.NormalizedStandsForMaterialized` | graalJS_benchmarking_suite/morpheus.js:446-454 | the normalized matrix stands for exactly the materialized matrix |
| `Experiments.Select` | graalJS_benchmarking_suite/morpheus.js:517-526 | keeps exactly the pairs whose name is selected, in their original order |
| `Experiments.GetTasks` | graalJS_benchmarking_suite/morpheus.js:467-527 | fails with an index error exactly when the materialized matrix has fewer than 10 rows, as the k-means centres are cut from them; otherwise the result is the selected task pairs in key order, unknown names dropped |
| `Experiments.SelectTasks` | graalJS_benchmarking_suite/morpheus.js:517-527 | the loop over the keys keeps exactly the pairs whose name is selected, in key order |
| `Experiments.SelectDependsOnNamesOnly` | graalJS_benchmarking_suite/morpheus.js:519-520 | the selection depends only on which names are selected, not on their order or repetition |
| `LinReg.NewRegressor` | graalpython_benchmarking_suite/linReg.py:19-21 | keeps the given iteration count and step size; untrained |
| `LinReg.DefaultRegressor` | graalpython_benchmarking_suite/linReg.py:19 | 20 iterations, step size 0.000001, untrained |
| `LinReg.Step` | graalpython_benchmarking_suite/linReg.py:26 | one update keeps `w` d×1 for `X` n×d and `y` n×1 |
| `LinReg.Descend` | graalpython_benchmarking_suite/linReg.py:25-26 | any number of updates keeps the shapes conforming |
| `LinReg.Fit` | graalpython_benchmarking_suite/linReg.py:23-27 | starts from `w_init` when given and from the random draw otherwise. With no iterations `w` is that start. Otherwise `w` is `iterations` updates of the start, and the shapes conform (`y` and `w` may have several columns); with non-conforming shapes the loop raises and `w` keeps the start stored before it. Step size and iteration count are kept |
| `LinReg.Predict` | graalpython_benchmarking_suite/linReg.py:29-35 | fails as untrained without `w`; otherwise every entry (i, j) is row i of `X` times column j of `w`, defined exactly when the inner dimensions agree |
| `LinReg.FitLoop` | graalJS_benchmarking_suite/morpheus.js:258-269 | the JavaScript loop computes the same `iterations` updates as the Python `fit` |
| `LinReg.DescendComposes` | graalpython_benchmarking_suite/linReg.py:25-26 | `a` updates followed by `b` updates are `a + b` updates |
| `LinReg.ExactFitIsFixed` | graalpython_benchmarking_suite/linReg.py:26 | a `w` with `X·w = y` is left unchanged by every number of updates |
| `LinReg.FitIgnoresDrawWhenInitialised` | graalpython_benchmarking_suite/linReg.py:24 | with `w_init` given, the random draw does not affect `fit` |
| `LinReg.PredictAfterFit` | graalpython_benchmarking_suite/linReg.py:23-35 | a fresh regressor cannot predict; after a successful `fit`, `predict(X)` is `X·w`; after a `fit` that raised, it is `X·w_init` |
| `LinReg.WorkedExample` | graalpython_benchmarking_suite/linReg.py:26 | with `X = [[1,0],[0,1],[1,1]]`, `y = [1,1,2]`, `w = [0,0]` and `γ = 0.1`, one update gives `w = [0.3, 0.3]` |

## Left out

- MorpheusDSL itself, `polyglot.eval`, the R-side avatar and mathjs internals are foreign code. In the Python model they are records of the calls made. In the JavaScript model the MorpheusDSL object is given the meaning `NormMatrixJs.Denote` assigns it (see below).
- The NumPy subclass hooks (`__array_prepare__`, `__array_wrap__`, `__array_finalize__`, `__getitem__`, `__str__`, `__repr__`) and `dimm` are boilerplate with no behaviour to state.
- `__isub__` is not modelled. For a normalized operand, the unary minus it applies is declined by `__array_ufunc__` (one input) and raises `TypeError`. For a number it ends in `__iadd__`, which never succeeds.
- Unreachable source lines are not modelled: the trailing `normalizedTable` addition after both branches of `__add__` return, and the `normMatrix` return in `__mul__`.
- The `crossProduct` branch of `__rmul__` is not modelled: the missing `stamp` attribute makes it fail before that branch is reached.
- `Morpheus.IsScalar`: `np.isscalar` is also true of strings and other non-numeric scalars; only numbers are modelled.
- Attribute lookups on foreign objects (`other.mat`, `other.inner` where `other` is foreign) are modelled as missing attributes. A foreign object's members are not visible.
- `Morpheus.ArrayUfunc`: only whether keyword arguments are given is modelled, not their values. A foreign first operand's `__mul__` is taken to reject them too.
- Calls into foreign code (avatar methods, `normalizedTable` methods, host operators on foreign values) are taken to return. Their exceptions, such as a shape mismatch raised on the R side, are not represented.
- `scalarExponentiation` (`math.exp`), `crossProduct`, `removeAbstractions` and `unwrap` of `TensorFromMatrix`, and the logistic regression, k-means and GNMF algorithms, rest on transcendental floating point or are never called on the modelled paths.
- `TensorFromMatrix.Splice`: mathjs accepts empty ranges (any `rowEnd < rowBeg`, and likewise for columns); they are reported as index errors here.
- `TensorFromMatrix.MatrixAddition`: mathjs broadcasting of differently shaped operands is reported as a dimension error.
- `LinReg.Fit`: shapes are conforming when `X` is n×d, `y` is n×k and `w` is d×k. Other shapes that NumPy broadcasting would accept (a `y` of one column against a `w` of several, say) are reported as a shape mismatch. The arithmetic is exact `real` arithmetic, not IEEE floating point.
- `Experiments.GenMatrices`: `S`, `R` and the foreign keys are inputs, not `math.random`/`math.randomInt` draws.
- `LinReg.Fit`: the initial weights drawn by `np.random.randn` are an input.
- `Experiments.GetTasks`: the runner closures are named, not executed. The random `lmmArg`, `rmmArg` and `logRegWinit` are not modelled, and the k-means centres only through the row count they need. A matrix with no columns is taken to yield its centres.
- Timing, output and CLI code (`compare`, `compareEquality`, `getNanoSecTime`, `main`, `benchmarkRunner.py`) and the subprocess launchers only measure and print, so they are left out.
- `NormMatrixJs.Denote`: MorpheusDSL's result for each requested operation is taken to be that `TensorFromMatrix` operation applied to the materialized matrix `[S | K1·R1 | …]`. Its factorized rewrites are not modelled, so the agreement lemmas show only that the right operation is requested with the right operands. Three readings are built in. When `Sempty` is set, `S` is dropped. The number from `elementWiseSum` comes back as a 1×1 matrix, inferred from the `get([0, 0])` that `sum` applies to it. An operation that fails leaves the term without a meaning.
- `NormMatrixJs.TransposeOf`: the avatar passed as a fifth constructor argument is ignored by the constructor, as in the source.

## Findings

| source | as written | input that shows it | evidently intended | confidence | as-written member | corrected member |
|---|---|---|---|---|---|---|
| graalJS_benchmarking_suite/morpheus.js:65-74 | `subtract` with a number forwards `scalarMultiplication`, so `A - x` and `x - A` both compute `x·A` | `A = [[1]]`, `x = 1`: `A - x` gives `[[1]]` | `A - x` is `A + (-x)` and `x - A` is `(-1·A) + x` | medium; not executed | `NormMatrixJs.Subtract`, `NormMatrixJs.SubtractAsWrittenCounterexample` | `NormMatrixJs.SubtractCorrected`, `NormMatrixJs.SubtractCorrectedMeaning` |
