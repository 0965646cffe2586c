/** The Python normalized matrix (`NormalizedMatrix`) and its operator
    dispatch. A value is either factorized (it keeps `S`, `Ks`, `Rs` and a
    MorpheusDSL table built from them) or dense (it keeps a foreign matrix
    `mat` and calls the avatar's methods on it).

    The avatar, the MorpheusDSL table and every matrix they return are
    foreign. Nothing is assumed about what they compute: a foreign object is
    the record (`Raw`) of the call that produced it, so two outcomes are
    equal exactly when the same operations were requested on the same
    operands. */
module Morpheus {
  import opened Results

  /** The foreign computation context ("avatar") operations are forwarded to. */
  datatype Avatar = Avatar(id: nat)

  /** Names of the operations requested from the avatar or the MorpheusDSL table. */
  datatype Op =
    | ScalarAddition | ScalarMultiplication | MatrixAddition
    | LeftMatrixMultiplication | RightMatrixMultiplication | Transpose | Invert

  /** Python's own binary operators applied to a foreign object. */
  datatype HostOperator = Product | Quotient

  /** A foreign object, recorded by how it was obtained. */
  datatype Raw =
      /** supplied by the caller */
    | Input(id: nat)
      /** a MorpheusDSL table after `build(S, Ks, Rs, Sempty, avatar)` */
    | Table(s: Raw, ks: Value, rs: Value, sEmpty: bool, builtWith: Avatar)
      /** `avatar.op(args...)` */
    | AvatarCall(callee: Avatar, op: Op, args: seq<Value>)
      /** `table.op(args...)` */
    | TableMethod(table: Raw, op: Op, args: seq<Value>)
      /** the table itself called as a function, `table("op", args...)` */
    | TableCall(table: Raw, op: Op, args: seq<Value>)
      /** `left * right` or `left / right` with a foreign left operand */
    | ForeignOperator(operator: HostOperator, left: Raw, right: Value)

  /** The Python values the operators take and return. */
  datatype Value =
    | NoneValue
    | Number(x: real)
    | Foreign(raw: Raw)
    | Normalized(m: NM)
      /** the `NotImplemented` singleton */
    | NotImplementedValue
      /** the `NotImplementedError` class, returned rather than raised */
    | NotImplementedErrorClass

  /** A `NormalizedMatrix`: factorized (`isMorpheus`) or dense. */
  datatype NM =
    | Factorized(s: Raw, ks: Value, rs: Value, isTransposed: bool, sEmpty: bool,
                 foreignBackend: bool, inner: Raw, avatar: Option<Avatar>)
    | Dense(mat: Value, avatar: Option<Avatar>)

  datatype Exception = NotImplementedError | AttributeError | TypeError

  /** What a Python call does: return a value or raise an exception. */
  datatype Outcome = Returned(v: Value) | Raised(e: Exception)

  /** `np.isscalar`: the scalars are the numbers. */
  predicate IsScalar(v: Value) {
    v.Number?
  }

  /** A value construction can produce: a dense value holds a matrix, a
      factorized one holds an avatar and has its `sEmpty` flag false. */
  predicate Valid(m: NM) {
    match m
    case Dense(mat, _) => mat != NoneValue
    case Factorized(_, _, _, _, sEmpty, _, _, avatar) => avatar.Some? && !sEmpty
  }

  // ---------------------------------------------------------------------------
  // Construction

  /** `NormalizedMatrix(mat, S, Ks, Rs, is_transposed, foreign_backend, avatar)`.
      With `mat` the value is dense. Without it, `S` must be a foreign object
      and an avatar must be given; the MorpheusDSL table is then built with
      `Sempty` set to `False`. */
  function New(mat: Value, s: Value, ks: Value, rs: Value, isTransposed: bool,
               foreignBackend: bool, avatar: Option<Avatar>): (r: Result<NM, Exception>)
    ensures mat != NoneValue ==> r == Ok(Dense(mat, avatar))
    ensures mat == NoneValue ==> (r.Ok? <==> s.Foreign? && avatar.Some?)
    ensures mat == NoneValue && r.Ok? ==>
              r.value.Factorized? && r.value.s == s.raw && r.value.ks == ks && r.value.rs == rs &&
              r.value.isTransposed == isTransposed && r.value.foreignBackend == foreignBackend &&
              !r.value.sEmpty && r.value.avatar == avatar &&
              r.value.inner == Table(s.raw, ks, rs, false, avatar.value)
    ensures r.Err? ==> r.error == NotImplementedError
    ensures r.Ok? ==> Valid(r.value)
  {
    if mat != NoneValue then Ok(Dense(mat, avatar))
    else if !s.Foreign? then Err(NotImplementedError)
    else match NormalizedTable(s.raw, ks, rs, false, avatar)
      case Err(e) => Err(e)
      case Ok(table) => Ok(Factorized(s.raw, ks, rs, isTransposed, false, foreignBackend, table, avatar))
  }

  /** `__getNormalizedTable`: builds a MorpheusDSL table; there must be an avatar. */
  function NormalizedTable(s: Raw, ks: Value, rs: Value, sEmpty: bool, avatar: Option<Avatar>): (r: Result<Raw, Exception>)
    ensures r.Ok? <==> avatar.Some?
    ensures r.Ok? ==> r.value == Table(s, ks, rs, sEmpty, avatar.value)
    ensures r.Err? ==> r.error == NotImplementedError
  {
    if avatar.None? then Err(NotImplementedError) else Ok(Table(s, ks, rs, sEmpty, avatar.value))
  }

  /** `NormalizedMatrix(mat=newMat, avatar=avatar)`, as an outcome. */
  function Wrap(mat: Value, avatar: Option<Avatar>): (r: Outcome)
    ensures mat != NoneValue ==> r == Returned(Normalized(Dense(mat, avatar)))
    ensures mat == NoneValue ==> r == Raised(NotImplementedError)
  {
    match New(mat, NoneValue, NoneValue, NoneValue, false, false, avatar)
    case Ok(m) => Returned(Normalized(m))
    case Err(e) => Raised(e)
  }

  /** Wraps what a delegate call returned, passing an exception on. */
  function WrapOutcome(o: Outcome, avatar: Option<Avatar>): (r: Outcome)
    ensures o.Raised? ==> r == o
    ensures r.Returned? ==> r.v.Normalized? && r.v.m == Dense(o.v, avatar) && Valid(r.v.m)
  {
    match o
    case Raised(e) => Raised(e)
    case Returned(v) => Wrap(v, avatar)
  }

  /** `self.inner(fname, arg)`. For a dense value this is the curried
      avatar: it calls `avatar.fname(mat)`, or `avatar.fname(mat, arg)` when
      an argument other than `None` is given. For a factorized value `inner`
      is the MorpheusDSL table, and the call goes to the table itself. */
  function CallInner(m: NM, op: Op, arg: Option<Value>): (r: Outcome)
    ensures m.Dense? && m.mat == NoneValue ==> r == Raised(NotImplementedError)
    ensures m.Dense? && m.mat != NoneValue && m.avatar.None? ==> r == Raised(AttributeError)
    ensures m.Dense? && m.mat != NoneValue && m.avatar.Some? ==>
              r.Returned? && r.v.Foreign? && r.v.raw.AvatarCall? &&
              r.v.raw.callee == m.avatar.value && r.v.raw.op == op &&
              1 <= |r.v.raw.args| <= 2 && r.v.raw.args[0] == m.mat &&
              (|r.v.raw.args| == 1 <==> arg.None? || arg.value == NoneValue) &&
              (|r.v.raw.args| == 2 ==> r.v.raw.args[1] == arg.value)
    ensures m.Factorized? ==> r.Returned? && r.v.Foreign? && r.v.raw.TableCall? && r.v.raw.table == m.inner
    ensures r.Returned? ==> r.v.Foreign?
  {
    match m
    case Dense(mat, avatar) =>
      var given := if arg.Some? then arg.value else NoneValue;
      if mat == NoneValue then Raised(NotImplementedError)
      else if avatar.None? then Raised(AttributeError)
      else Returned(Foreign(AvatarCall(avatar.value, op, AvatarArgs(mat, given))))
    case Factorized(_, _, _, _, _, _, inner, _) =>
      Returned(Foreign(TableCall(inner, op, if arg.Some? then [arg.value] else [])))
  }

  /** `other.mat`: a dense value's matrix, `None` for a factorized value,
      and no such attribute on anything else. */
  function MatAttribute(v: Value): (r: Outcome)
    ensures r.Returned? <==> v.Normalized?
    ensures v.Normalized? && v.m.Dense? ==> r == Returned(v.m.mat)
    ensures v.Normalized? && v.m.Factorized? ==> r == Returned(NoneValue)
    ensures r.Raised? ==> r.e == AttributeError
  {
    match v
    case Normalized(m) => Returned(if m.Dense? then m.mat else NoneValue)
    case _ => Raised(AttributeError)
  }

  /** The operands a dense value passes to its avatar: `mat`, and the
      argument only when one other than `None` is given. */
  function AvatarArgs(mat: Value, arg: Value): seq<Value> {
    if arg == NoneValue then [mat] else [mat, arg]
  }

  /** A dense value that can forward calls: it holds a matrix and an avatar. */
  predicate Ready(m: NM) {
    m.Dense? && m.mat != NoneValue && m.avatar.Some?
  }

  /** The dense value, carrying the receiver's avatar, that wraps the foreign
      matrix the receiver's avatar returns for `op(mat, arg)`. */
  function Forwarded(self: NM, op: Op, arg: Value): (v: Value)
    requires Ready(self)
    ensures v.Normalized? && v.m.Dense? && v.m.avatar == self.avatar && Valid(v.m)
    ensures v.m.mat.Foreign? && v.m.mat.raw.AvatarCall? && v.m.mat.raw.op == op
  {
    Normalized(Dense(Foreign(AvatarCall(self.avatar.value, op, AvatarArgs(self.mat, arg))), self.avatar))
  }

  /** The dense value, carrying `avatar`, that wraps the foreign matrix a
      MorpheusDSL table returns. */
  function FromTable(table: Raw, op: Op, args: seq<Value>, avatar: Option<Avatar>, called: bool): Value {
    Normalized(Dense(Foreign(if called then TableCall(table, op, args) else TableMethod(table, op, args)), avatar))
  }

  // ---------------------------------------------------------------------------
  // Operators

  /** `__add__` (and `__radd__`). */
  function Add(self: NM, other: Value): (r: Outcome)
    ensures self.Factorized? && IsScalar(other) ==> r == Raised(NotImplementedError)
    ensures self.Factorized? && !IsScalar(other) ==> r == Returned(NotImplementedErrorClass)
    ensures Ready(self) && IsScalar(other) ==> r == Returned(Forwarded(self, ScalarAddition, other))
    ensures Ready(self) && other.Normalized? ==> r == Returned(Forwarded(self, MatrixAddition, MatAttribute(other).v))
    ensures self.Dense? && !IsScalar(other) && !other.Normalized? ==> r == Raised(AttributeError)
    ensures r.Returned? && r.v.Normalized? ==> self.Dense? && r.v.m.Dense? && r.v.m.avatar == self.avatar && Valid(r.v.m)
  {
    if IsScalar(other) then
      if self.Factorized? then Raised(NotImplementedError)
      else WrapOutcome(CallInner(self, ScalarAddition, Some(other)), self.avatar)
    else if self.Factorized? then Returned(NotImplementedErrorClass)
    else match MatAttribute(other)
      case Raised(e) => Raised(e)
      case Returned(otherMat) => WrapOutcome(CallInner(self, MatrixAddition, Some(otherMat)), self.avatar)
  }

  /** `__radd__`: addition with the receiver kept on the left. */
  function ReflectedAdd(self: NM, other: Value): (r: Outcome)
    ensures Ready(self) && IsScalar(other) ==> r == Returned(Forwarded(self, ScalarAddition, other))
    ensures self.Factorized? && !IsScalar(other) ==> r == Returned(NotImplementedErrorClass)
    ensures r == Add(self, other)
  {
    Add(self, other)
  }

  /** `__mul__`. */
  function Mul(self: NM, other: Value): (r: Outcome)
    ensures self.Factorized? && IsScalar(other) ==> r == Raised(NotImplementedError)
    ensures Ready(self) && IsScalar(other) ==> r == Returned(Forwarded(self, ScalarMultiplication, other))
    ensures self.Factorized? && other.Normalized? ==>
              r == Returned(FromTable(self.inner, LeftMatrixMultiplication, [MatAttribute(other).v], self.avatar, false))
    ensures Ready(self) && other.Normalized? ==>
              r == Returned(Forwarded(self, RightMatrixMultiplication, MatAttribute(other).v))
    ensures !IsScalar(other) && !other.Normalized? ==> r == Returned(NotImplementedValue)
    ensures r.Returned? && r.v.Normalized? ==> r.v.m.Dense? && r.v.m.avatar == self.avatar && Valid(r.v.m)
  {
    if IsScalar(other) then
      if self.Factorized? then Raised(NotImplementedError)
      else WrapOutcome(CallInner(self, ScalarMultiplication, Some(other)), self.avatar)
    else if other.Normalized? then
      var otherMat := MatAttribute(other).v;
      if self.Factorized? then Wrap(Foreign(TableMethod(self.inner, LeftMatrixMultiplication, [otherMat])), self.avatar)
      else WrapOutcome(CallInner(self, RightMatrixMultiplication, Some(otherMat)), self.avatar)
    else Returned(NotImplementedValue)
  }

  /** `__rmul__`. A scalar is handled as in `__mul__`; the branch for a
      normalized operand reads a `stamp` attribute no value has, and every
      other operand raises `NotImplementedError`. */
  function ReflectedMul(self: NM, other: Value): (r: Outcome)
    ensures self.Factorized? && IsScalar(other) ==> r == Raised(NotImplementedError)
    ensures Ready(self) && IsScalar(other) ==> r == Returned(Forwarded(self, ScalarMultiplication, other))
    ensures other.Normalized? ==> r == Raised(AttributeError)
    ensures !IsScalar(other) && !other.Normalized? ==> r == Raised(NotImplementedError)
  {
    if IsScalar(other) then
      if self.Factorized? then Raised(NotImplementedError)
      else WrapOutcome(CallInner(self, ScalarMultiplication, Some(other)), self.avatar)
    else if other.Normalized? then Raised(AttributeError)
    else Raised(NotImplementedError)
  }

  /** `v.__mul__(arg)` for any value `v`: Python's own product of numbers,
      a host-side product for a foreign object, and no such method on `None`
      or the two markers. */
  function MulMethod(v: Value, arg: Value): (r: Outcome)
    ensures v.Normalized? ==> r == Mul(v.m, arg)
    ensures v.Number? && arg.Number? ==> r == Returned(Number(v.x * arg.x))
    ensures v.Number? && !arg.Number? ==> r == Returned(NotImplementedValue)
    ensures v.Foreign? ==> r == Returned(Foreign(ForeignOperator(Product, v.raw, arg)))
    ensures v.NoneValue? || v.NotImplementedValue? || v.NotImplementedErrorClass? ==> r == Raised(AttributeError)
  {
    match v
    case Normalized(m) => Mul(m, arg)
    case Number(_) => if arg.Number? then Returned(Number(v.x * arg.x)) else Returned(NotImplementedValue)
    case Foreign(raw) => Returned(Foreign(ForeignOperator(Product, raw, arg)))
    case _ => Raised(AttributeError)
  }

  /** `__sub__`: the operand is multiplied by -1 and the product added. */
  function Sub(self: NM, other: Value): (r: Outcome)
    ensures self.Factorized? && other.Normalized? && other.m.Factorized? ==> r == Raised(NotImplementedError)
    ensures Ready(self) && other.Number? ==> r == Returned(Forwarded(self, ScalarAddition, Number(-other.x)))
    ensures r.Returned? && r.v.Normalized? ==> self.Dense? && r.v.m.Dense? && r.v.m.avatar == self.avatar && Valid(r.v.m)
  {
    match MulMethod(other, Number(-1.0))
    case Raised(e) => Raised(e)
    case Returned(prepArg) => Add(self, prepArg)
  }

  /** `__rsub__`: `self + self * -1`; the operand is never read. */
  function ReflectedSub(self: NM, other: Value): (r: Outcome)
    ensures self.Factorized? ==> r == Raised(NotImplementedError)
    ensures r.Returned? && r.v.Normalized? ==> self.Dense? && r.v.m.Dense? && r.v.m.avatar == self.avatar && Valid(r.v.m)
  {
    match Mul(self, Number(-1.0))
    case Raised(e) => Raised(e)
    case Returned(prepped) => ReflectedAdd(self, prepped)
  }

  /** The exponent `__pow__` takes when none is given. */
  const DefaultExponent: real := 2.71

  /** The exponent a call passes, or `DefaultExponent` when it passes none. */
  function Exponent(other: Option<Value>): Value {
    if other.Some? then other.value else Number(DefaultExponent)
  }

  /** `__pow__` (and `__rpow__`): forwards `scalarMultiplication` with the
      exponent as the factor; no exponentiation is ever requested. `None`
      stands for a call without an argument. */
  function Pow(self: NM, other: Option<Value>): (r: Outcome)
    ensures Ready(self) && other.Some? ==> r == Returned(Forwarded(self, ScalarMultiplication, other.value))
    ensures Ready(self) && other.None? ==> r == Returned(Forwarded(self, ScalarMultiplication, Number(DefaultExponent)))
    ensures self.Factorized? && other.Some? ==>
              r == Returned(FromTable(self.inner, ScalarMultiplication, [other.value], self.avatar, true))
    ensures self.Factorized? && other.None? ==>
              r == Returned(FromTable(self.inner, ScalarMultiplication, [Number(DefaultExponent)], self.avatar, true))
    ensures r.Returned? ==> r.v.Normalized? && r.v.m.Dense? && r.v.m.avatar == self.avatar && Valid(r.v.m)
  {
    WrapOutcome(CallInner(self, ScalarMultiplication, Some(Exponent(other))), self.avatar)
  }

  /** `__rpow__`: the power with the receiver as the base. */
  function ReflectedPow(self: NM, other: Option<Value>): (r: Outcome)
    ensures Ready(self) && other.Some? ==> r == Returned(Forwarded(self, ScalarMultiplication, other.value))
    ensures Ready(self) && other.None? ==> r == Returned(Forwarded(self, ScalarMultiplication, Number(DefaultExponent)))
    ensures self.Factorized? ==> r == Returned(FromTable(self.inner, ScalarMultiplication, [Exponent(other)], self.avatar, true))
    ensures r == Pow(self, other)
  {
    Pow(self, other)
  }

  /** `other.inner(op)` for any value: only a normalized matrix has `inner`. */
  function InnerOf(v: Value, op: Op): (r: Outcome)
    ensures v.Normalized? ==> r == CallInner(v.m, op, None)
    ensures !v.Normalized? ==> r == Raised(AttributeError)
  {
    match v
    case Normalized(m) => CallInner(m, op, None)
    case _ => Raised(AttributeError)
  }

  /** `__truediv__`: the operand is inverted by its own delegate, wrapped
      with the receiver's avatar, and multiplied in. */
  function Truediv(self: NM, other: Value): (r: Outcome)
    ensures !other.Normalized? ==> r == Raised(AttributeError)
    ensures Ready(self) && other.Normalized? && Ready(other.m) ==>
              r == Returned(Forwarded(self, RightMatrixMultiplication,
                                      Foreign(AvatarCall(other.m.avatar.value, Invert, [other.m.mat]))))
    ensures self.Factorized? && other.Normalized? && other.m.Factorized? ==>
              r == Returned(FromTable(self.inner, LeftMatrixMultiplication, [Foreign(TableCall(other.m.inner, Invert, []))], self.avatar, false))
    ensures r.Returned? && r.v.Normalized? ==> r.v.m.Dense? && r.v.m.avatar == self.avatar && Valid(r.v.m)
  {
    match InnerOf(other, Invert)
    case Raised(e) => Raised(e)
    case Returned(newMat) =>
      match Wrap(newMat, self.avatar)
      case Raised(e) => Raised(e)
      case Returned(preppedArg) => Mul(self, preppedArg)
  }

  /** `other.__truediv__(arg)` for any value: a normalized matrix divides as
      above, a number declines, a foreign object divides on the host side,
      and `None` and the markers have no such method. */
  function TruedivMethod(v: Value, arg: Value): (r: Outcome)
    ensures v.Normalized? ==> r == Truediv(v.m, arg)
    ensures v.Number? ==> r == Returned(NotImplementedValue)
    ensures v.Foreign? ==> r == Returned(Foreign(ForeignOperator(Quotient, v.raw, arg)))
    ensures v.NoneValue? || v.NotImplementedValue? || v.NotImplementedErrorClass? ==> r == Raised(AttributeError)
  {
    match v
    case Normalized(m) => Truediv(m, arg)
    case Number(_) => Returned(NotImplementedValue)
    case Foreign(raw) => Returned(Foreign(ForeignOperator(Quotient, raw, arg)))
    case _ => Raised(AttributeError)
  }

  /** `__rtruediv__`: the operand divides the receiver. */
  function ReflectedTruediv(self: NM, other: Value): (r: Outcome)
    ensures other.Normalized? ==> r == Truediv(other.m, Normalized(self))
    ensures other.Number? ==> r == Returned(NotImplementedValue)
    ensures other.Normalized? && r.Returned? && r.v.Normalized? ==> r.v.m.avatar == other.m.avatar
  {
    TruedivMethod(other, Normalized(self))
  }

  /** `__itruediv__` raises for every operand. */
  function InplaceTruediv(self: NM, other: Value): (r: Outcome)
    ensures r == Raised(NotImplementedError)
  {
    Raised(NotImplementedError)
  }

  /** `sum(axis, dtype, out)` raises for every argument. */
  function Sum(self: NM, axis: Value, dtype: Value, out: Value): (r: Outcome)
    ensures r == Raised(NotImplementedError)
  {
    Raised(NotImplementedError)
  }

  /** `__iadd__`: after the addition it reads a `normalizedTable` attribute
      that no result has, so it fails in every case. */
  function InplaceAdd(self: NM, other: Value): (r: Outcome)
    ensures r.Raised?
    ensures Add(self, other).Raised? ==> r == Add(self, other)
    ensures Add(self, other).Returned? ==> r == Raised(AttributeError)
  {
    match Add(self, other)
    case Raised(e) => Raised(e)
    case Returned(_) => Raised(AttributeError)
  }

  /** `__ipow__`: like `__iadd__`, after the power. */
  function InplacePow(self: NM, other: Option<Value>): (r: Outcome)
    ensures r.Raised?
    ensures Pow(self, other).Raised? ==> r == Pow(self, other)
    ensures Pow(self, other).Returned? ==> r == Raised(AttributeError)
  {
    match Pow(self, other)
    case Raised(e) => Raised(e)
    case Returned(_) => Raised(AttributeError)
  }

  /** `__imul__`: declines a non-scalar and fails on the missing
      `normalizedTable` attribute for a scalar. */
  function InplaceMul(self: NM, other: Value): (r: Outcome)
    ensures !IsScalar(other) <==> r == Returned(NotImplementedValue)
    ensures IsScalar(other) <==> r == Raised(AttributeError)
  {
    if !IsScalar(other) then Returned(NotImplementedValue) else Raised(AttributeError)
  }

  /** The `T` property. A factorized value is rebuilt from its own `S`, `Ks`,
      `Rs` and avatar, with `is_transposed` and `foreign_backend` at their
      defaults, and its `inner` replaced by the delegate's transpose; a dense
      value wraps the avatar's transpose of `mat`. */
  function Transposed(self: NM): (r: Outcome)
    ensures self.Factorized? && self.avatar.Some? ==>
              r == Returned(Normalized(Factorized(self.s, self.ks, self.rs, false, false, false,
                                                  TableMethod(self.inner, Transpose, []), self.avatar)))
    ensures self.Factorized? && self.avatar.None? ==> r == Raised(NotImplementedError)
    ensures Ready(self) ==> r == Returned(Forwarded(self, Transpose, NoneValue))
    ensures r.Returned? ==> r.v.Normalized? && r.v.m.avatar == self.avatar && Valid(r.v.m)
  {
    match self
    case Factorized(s, ks, rs, _, _, _, inner, avatar) =>
      var newMat := TableMethod(inner, Transpose, []);
      (match New(NoneValue, Foreign(s), ks, rs, false, false, avatar)
       case Err(e) => Raised(e)
       case Ok(normMat) => Returned(Normalized(normMat.(inner := newMat))))
    case Dense(_, avatar) => WrapOutcome(CallInner(self, Transpose, None), avatar)
  }

  // ---------------------------------------------------------------------------
  // NumPy ufunc entry point

  /** The NumPy universal functions; the first five are the supported ones. */
  datatype Ufunc = AddUfunc | SubtractUfunc | DivideUfunc | MultiplyUfunc | PowerUfunc | OtherUfunc

  /** How a ufunc is invoked; only a plain call is handled. */
  datatype UfuncMethod = CallMethod | ReduceMethod | AccumulateMethod | OuterMethod | AtMethod

  /** `isinstance(inputs[0], NormalizedMatrix) - isinstance(inputs[1], NormalizedMatrix)`. */
  function Order(first: Value, second: Value): (order: int)
    ensures -1 <= order <= 1
    ensures order == 1 <==> first.Normalized? && !second.Normalized?
    ensures order == -1 <==> !first.Normalized? && second.Normalized?
  {
    (if first.Normalized? then 1 else 0) - (if second.Normalized? then 1 else 0)
  }

  /** The forward method a supported ufunc is dispatched to. The class has
      no `__div__`, the name listed for `np.divide`, so that lookup fails. */
  function ForwardMethod(ufunc: Ufunc, self: NM, other: Value): Outcome {
    match ufunc
    case AddUfunc => Add(self, other)
    case SubtractUfunc => Sub(self, other)
    case DivideUfunc => Raised(AttributeError)
    case MultiplyUfunc => Mul(self, other)
    case PowerUfunc => Pow(self, Some(other))
    case OtherUfunc => Returned(NotImplementedValue)
  }

  /** The reflected method a supported ufunc is dispatched to; as above,
      there is no `__rdiv__`. */
  function ReflectedMethod(ufunc: Ufunc, self: NM, other: Value): Outcome {
    match ufunc
    case AddUfunc => ReflectedAdd(self, other)
    case SubtractUfunc => ReflectedSub(self, other)
    case DivideUfunc => Raised(AttributeError)
    case MultiplyUfunc => ReflectedMul(self, other)
    case PowerUfunc => ReflectedPow(self, Some(other))
    case OtherUfunc => Returned(NotImplementedValue)
  }

  /** Whether a `__mul__` method can be looked up on the value; a foreign
      value is taken to have one. */
  predicate HasMul(v: Value) {
    v.Normalized? || v.Number? || v.Foreign?
  }

  /** `__array_ufunc__`: only a plain call of a supported ufunc on two inputs
      is handled, by the normalized input's method; with both or neither
      input normalized only `np.multiply` is handled. `keywords` says whether
      the ufunc was given keyword arguments (`out=`, `where=`, ...): they are
      passed on to the method, which accepts none, so the call raises
      `TypeError` once the method has been found. */
  function ArrayUfunc(ufunc: Ufunc, how: UfuncMethod, inputs: seq<Value>, keywords: bool): (r: Outcome)
    ensures ufunc == OtherUfunc || how != CallMethod || |inputs| != 2 ==> r == Returned(NotImplementedValue)
    ensures ufunc != OtherUfunc && how == CallMethod && |inputs| == 2 && Order(inputs[0], inputs[1]) == 1 && !keywords ==>
              r == ForwardMethod(ufunc, inputs[0].m, inputs[1])
    ensures ufunc != OtherUfunc && how == CallMethod && |inputs| == 2 && Order(inputs[0], inputs[1]) == -1 && !keywords ==>
              r == ReflectedMethod(ufunc, inputs[1].m, inputs[0])
    ensures ufunc == MultiplyUfunc && how == CallMethod && |inputs| == 2 && Order(inputs[0], inputs[1]) == 0 && !keywords ==>
              r == MulMethod(inputs[0], inputs[1])
    ensures ufunc != OtherUfunc && ufunc != MultiplyUfunc && how == CallMethod && |inputs| == 2 && Order(inputs[0], inputs[1]) == 0 ==>
              r == Returned(NotImplementedValue)
    ensures ufunc != OtherUfunc && ufunc != DivideUfunc && how == CallMethod && |inputs| == 2 && Order(inputs[0], inputs[1]) != 0 && keywords ==>
              r == Raised(TypeError)
    ensures ufunc == DivideUfunc && how == CallMethod && |inputs| == 2 && Order(inputs[0], inputs[1]) != 0 ==>
              r == Raised(AttributeError)
    ensures ufunc == MultiplyUfunc && how == CallMethod && |inputs| == 2 && Order(inputs[0], inputs[1]) == 0 && keywords ==>
              r == if HasMul(inputs[0]) then Raised(TypeError) else Raised(AttributeError)
  {
    if ufunc != OtherUfunc && |inputs| == 2 && how == CallMethod then
      var order := Order(inputs[0], inputs[1]);
      if order == 1 then
        if keywords && ufunc != DivideUfunc then Raised(TypeError) else ForwardMethod(ufunc, inputs[0].m, inputs[1])
      else if order == -1 then
        if keywords && ufunc != DivideUfunc then Raised(TypeError) else ReflectedMethod(ufunc, inputs[1].m, inputs[0])
      else if ufunc == MultiplyUfunc then
        if keywords && HasMul(inputs[0]) then Raised(TypeError) else MulMethod(inputs[0], inputs[1])
      else Returned(NotImplementedValue)
    else Returned(NotImplementedValue)
  }

  // ---------------------------------------------------------------------------
  // Properties

  /** A given `mat` makes a dense value whatever else is passed; its `inner`
      calls the named avatar method on `mat`, adding the argument only when
      one is given. */
  lemma DenseConstruction(mat: Value, s: Value, ks: Value, rs: Value, isTransposed: bool,
                          foreignBackend: bool, avatar: Avatar, op: Op, arg: Value)
    requires mat != NoneValue
    ensures New(mat, s, ks, rs, isTransposed, foreignBackend, Some(avatar))
            == New(mat, NoneValue, NoneValue, NoneValue, false, false, Some(avatar))
    ensures New(mat, s, ks, rs, isTransposed, foreignBackend, Some(avatar)).Ok?
    ensures CallInner(New(mat, s, ks, rs, isTransposed, foreignBackend, Some(avatar)).value, op, Some(arg))
            == Returned(Foreign(AvatarCall(avatar, op, [mat] + if arg == NoneValue then [] else [arg])))
    ensures CallInner(New(mat, s, ks, rs, isTransposed, foreignBackend, Some(avatar)).value, op, None)
            == Returned(Foreign(AvatarCall(avatar, op, [mat])))
  {
  }

  /** Without `mat`, a factorized value's `inner` is the table built from its
      own `S`, `Ks` and `Rs` with `Sempty` false, and every forwarded
      operation is a call on that table. */
  lemma FactorizedConstruction(s: Raw, ks: Value, rs: Value, isTransposed: bool,
                               foreignBackend: bool, avatar: Avatar, op: Op, arg: Value)
    ensures New(NoneValue, Foreign(s), ks, rs, isTransposed, foreignBackend, Some(avatar)).Ok?
    ensures CallInner(New(NoneValue, Foreign(s), ks, rs, isTransposed, foreignBackend, Some(avatar)).value, op, Some(arg))
            == Returned(Foreign(TableCall(Table(s, ks, rs, false, avatar), op, [arg])))
    ensures New(NoneValue, Foreign(s), ks, rs, isTransposed, foreignBackend, None) == Err(NotImplementedError)
  {
  }

  /** `a - b` for two normalized matrices is `a + (b * -1)`: for two dense
      values, a matrix addition with the avatar's negation of `b`; with a
      factorized side it never yields a normalized matrix. */
  lemma SubtractionAddsNegation(a: NM, b: NM)
    ensures Mul(b, Number(-1.0)).Raised? ==> Sub(a, Normalized(b)) == Mul(b, Number(-1.0))
    ensures Mul(b, Number(-1.0)).Returned? ==> Sub(a, Normalized(b)) == Add(a, Mul(b, Number(-1.0)).v)
    ensures Ready(a) && Ready(b) ==>
              Sub(a, Normalized(b)) == Returned(Forwarded(a, MatrixAddition,
                                          Foreign(AvatarCall(b.avatar.value, ScalarMultiplication, [b.mat, Number(-1.0)]))))
    ensures a.Factorized? || b.Factorized? ==>
              Sub(a, Normalized(b)).Raised? || Sub(a, Normalized(b)) == Returned(NotImplementedErrorClass)
  {
    if Ready(a) && Ready(b) {
      assert Mul(b, Number(-1.0)) == Returned(Forwarded(b, ScalarMultiplication, Number(-1.0)));
      assert MatAttribute(Mul(b, Number(-1.0)).v).v == Foreign(AvatarCall(b.avatar.value, ScalarMultiplication, [b.mat, Number(-1.0)]));
    }
  }

  /** `__rsub__` never reads its operand: `other - a` is `a + a * -1` for
      every `other`. */
  lemma ReflectedSubIgnoresOperand(a: NM, x: Value, y: Value)
    ensures ReflectedSub(a, x) == ReflectedSub(a, y)
    ensures Ready(a) ==>
              ReflectedSub(a, x) == Returned(Forwarded(a, MatrixAddition,
                                       Foreign(AvatarCall(a.avatar.value, ScalarMultiplication, [a.mat, Number(-1.0)]))))
  {
    if Ready(a) {
      assert Mul(a, Number(-1.0)) == Returned(Forwarded(a, ScalarMultiplication, Number(-1.0)));
    }
  }

  /** `a / b` is `a * wrap(invert(b))`, the inverse wrapped with `a`'s avatar. */
  lemma DivisionMultipliesByInverse(a: NM, b: NM)
    ensures CallInner(b, Invert, None).Raised? ==> Truediv(a, Normalized(b)) == CallInner(b, Invert, None)
    ensures CallInner(b, Invert, None).Returned? ==>
              Truediv(a, Normalized(b)) == Mul(a, Normalized(Dense(CallInner(b, Invert, None).v, a.avatar)))
  {
  }

  /** The binary operators of the Python value. */
  datatype BinaryOperator =
    | Plus | ReflectedPlus | Minus | ReflectedMinus | Times | ReflectedTimes
    | Power | ReflectedPower | Divide

  /** `self <op> other`, dispatched to the receiver's method. */
  function Binary(op: BinaryOperator, self: NM, other: Value): Outcome {
    match op
    case Plus => Add(self, other)
    case ReflectedPlus => ReflectedAdd(self, other)
    case Minus => Sub(self, other)
    case ReflectedMinus => ReflectedSub(self, other)
    case Times => Mul(self, other)
    case ReflectedTimes => ReflectedMul(self, other)
    case Power => Pow(self, Some(other))
    case ReflectedPower => ReflectedPow(self, Some(other))
    case Divide => Truediv(self, other)
  }

  /** Every normalized matrix an operator returns is dense, holds a matrix,
      and carries the receiver's avatar: a factorized form never survives an
      operation. */
  lemma OperatorsKeepAvatar(op: BinaryOperator, self: NM, other: Value)
    ensures Binary(op, self, other).Returned? && Binary(op, self, other).v.Normalized? ==>
              Binary(op, self, other).v.m.Dense? && Binary(op, self, other).v.m.avatar == self.avatar &&
              Valid(Binary(op, self, other).v.m)
  {
    match op
    case ReflectedTimes =>
      if IsScalar(other) && self.Dense? {
        assert ReflectedMul(self, other) == WrapOutcome(CallInner(self, ScalarMultiplication, Some(other)), self.avatar);
      }
    case _ =>
  }

  /** The transpose of a factorized value does not depend on its
      `is_transposed` or `foreign_backend` flags. */
  lemma TransposeForgetsOrientation(f: NM, isTransposed: bool, foreignBackend: bool)
    requires f.Factorized?
    ensures Transposed(f) == Transposed(f.(isTransposed := isTransposed, foreignBackend := foreignBackend))
  {
  }

  /** Transposing a factorized value twice keeps `S`, `Ks`, `Rs` and the
      avatar and asks the delegate for two transposes; the flags end at
      their defaults. */
  lemma TransposeTwice(f: NM)
    requires f.Factorized? && Valid(f)
    ensures Transposed(f).Returned?
    ensures Transposed(Transposed(f).v.m)
            == Returned(Normalized(f.(isTransposed := false, foreignBackend := false,
                                      inner := TableMethod(TableMethod(f.inner, Transpose, []), Transpose, []))))
  {
    var g := Transposed(f).v.m;
    assert g == f.(isTransposed := false, foreignBackend := false, inner := TableMethod(f.inner, Transpose, []));
  }

  /** Through the ufunc entry point, a supported ufunc with one normalized
      operand reaches the same method as the operator: the forward method
      when the normalized matrix is first, the reflected one otherwise. */
  lemma UfuncMatchesOperators(a: NM, x: Value)
    requires !x.Normalized?
    ensures ArrayUfunc(AddUfunc, CallMethod, [Normalized(a), x], false) == Add(a, x)
    ensures ArrayUfunc(AddUfunc, CallMethod, [x, Normalized(a)], false) == Add(a, x)
    ensures ArrayUfunc(SubtractUfunc, CallMethod, [Normalized(a), x], false) == Sub(a, x)
    ensures ArrayUfunc(SubtractUfunc, CallMethod, [x, Normalized(a)], false) == ReflectedSub(a, x)
    ensures ArrayUfunc(MultiplyUfunc, CallMethod, [Normalized(a), x], false) == Mul(a, x)
    ensures ArrayUfunc(MultiplyUfunc, CallMethod, [x, Normalized(a)], false) == ReflectedMul(a, x)
    ensures ArrayUfunc(PowerUfunc, CallMethod, [Normalized(a), x], false) == Pow(a, Some(x))
    ensures ArrayUfunc(PowerUfunc, CallMethod, [x, Normalized(a)], false) == Pow(a, Some(x))
  {
  }

  /** With both or neither operand normalized, only `np.multiply` is
      dispatched, as the first operand's `__mul__`. */
  lemma UfuncWithoutOrder(u: Ufunc, x: Value, y: Value)
    requires x.Normalized? <==> y.Normalized?
    ensures u == MultiplyUfunc ==> ArrayUfunc(u, CallMethod, [x, y], false) == MulMethod(x, y)
    ensures u != MultiplyUfunc ==> ArrayUfunc(u, CallMethod, [x, y], false) == Returned(NotImplementedValue)
  {
  }

  /** `np.divide` never divides: with one normalized operand it raises
      `AttributeError`, and otherwise it is declined, whereas `a / b` on two
      dense values multiplies by the inverse of `b`. */
  lemma DivisionUfuncNeverDivides(a: NM, x: Value, y: Value)
    requires !x.Normalized?
    ensures ArrayUfunc(DivideUfunc, CallMethod, [Normalized(a), x], false) == Raised(AttributeError)
    ensures ArrayUfunc(DivideUfunc, CallMethod, [x, Normalized(a)], false) == Raised(AttributeError)
    ensures y.Normalized? ==> ArrayUfunc(DivideUfunc, CallMethod, [Normalized(a), y], false) == Returned(NotImplementedValue)
    ensures Ready(a) && y.Normalized? && Ready(y.m) ==>
              Truediv(a, y) == Returned(Forwarded(a, RightMatrixMultiplication, Foreign(AvatarCall(y.m.avatar.value, Invert, [y.m.mat]))))
  {
  }

  /** Calling `__pow__`, `__rpow__` or `__ipow__` without an argument is the
      same as passing 2.71. */
  lemma PowDefaultsToExponent(self: NM)
    ensures Pow(self, None) == Pow(self, Some(Number(DefaultExponent)))
    ensures ReflectedPow(self, None) == Pow(self, Some(Number(DefaultExponent)))
    ensures InplacePow(self, None) == InplacePow(self, Some(Number(DefaultExponent)))
  {
  }

  /** Keyword arguments are never accepted: with them the entry point either
      declines or raises, and for every ufunc it dispatches to a method it
      raises. */
  lemma UfuncRejectsKeywords(u: Ufunc, how: UfuncMethod, inputs: seq<Value>)
    ensures ArrayUfunc(u, how, inputs, true).Raised? || ArrayUfunc(u, how, inputs, true) == Returned(NotImplementedValue)
    ensures ArrayUfunc(u, how, inputs, false).Returned? && ArrayUfunc(u, how, inputs, false).v != NotImplementedValue ==>
              ArrayUfunc(u, how, inputs, true).Raised?
  {
  }
}
