/** Variable records, handles and the two-way element-type tag
    (`VariableImpl<T>`, `Variable<T>`, `VarKind`, `VarKindImpl`).
    The element type parameter `T` of the source becomes an explicit
    `ElemKind` argument; specialisation on `T` becomes a case split on it. */
module Variables {
  import opened Wrappers
  import opened Tensors

  /** Handle identities are 32-bit signed integers. */
  type VarId = x: int | -0x8000_0000 <= x < 0x8000_0000

  /** `n as i32` for a `usize` n: keep the low 32 bits, read them as signed. */
  function AsI32(n: nat): (id: VarId)
    ensures n < 0x8000_0000 ==> id == n
    ensures 0x8000_0000 <= n < 0x1_0000_0000 ==> id < 0
  {
    var w := n % 0x1_0000_0000;
    if w < 0x8000_0000 then w else w - 0x1_0000_0000
  }

  /** An opaque reference to the function node that produced a variable. */
  datatype FuncRef = FuncRef(id: nat)

  /** Construction options of a variable. */
  datatype VariableArgs = VariableArgs(creator: Option<FuncRef>, volatile: bool, requiresGrad: bool)

  /** `VariableArgs::default()`: a leaf that takes part in differentiation. */
  function DefaultVariableArgs(): (a: VariableArgs)
    ensures a.creator == None && !a.volatile && a.requiresGrad
  {
    VariableArgs(None, false, true)
  }

  /** The mutable state behind one variable (`VariableImpl<T>`). */
  datatype VarRecord = VarRecord(
    data: Tensor,
    gradFn: Option<FuncRef>,
    grad: Option<Tensor>,
    dirty: bool,
    volatile: bool,
    requiresGrad: bool)

  /** A stored gradient always has the element kind and shape of the data. */
  predicate RecordOk(r: VarRecord)
  {
    r.grad.Some? ==> r.grad.value.kind == r.data.kind && r.grad.value.shape == r.data.shape
  }

  /** `VariableImpl::new`: a fresh record has no gradient, is clean, and takes
      its producer and its flags from the arguments. */
  function NewRecord(data: Tensor, args: VariableArgs): (r: VarRecord)
    ensures r.data == data && r.gradFn == args.creator
    ensures r.grad == None && !r.dirty
    ensures r.volatile == args.volatile && r.requiresGrad == args.requiresGrad
    ensures RecordOk(r)
  {
    VarRecord(data, args.creator, None, false, args.volatile, args.requiresGrad)
  }

  /** The record after `VariableImpl::grad`: a missing gradient is allocated as
      zeros of the data's shape; an existing one is kept. */
  function WithGrad(r: VarRecord): (r': VarRecord)
    ensures r'.grad.Some?
    ensures r.grad.Some? ==> r' == r
    ensures r.grad.None? ==> r' == r.(grad := Some(Zeros(r.data.kind, r.data.shape)))
    ensures RecordOk(r) ==> RecordOk(r')
  {
    match r.grad
    case Some(_) => r
    case None => r.(grad := Some(Zeros(r.data.kind, r.data.shape)))
  }

  /** The gradient `VariableImpl::grad` hands out. */
  function GradOf(r: VarRecord): (g: Tensor)
  {
    WithGrad(r).grad.value
  }

  /** `_do_backward` on one record: refused when dirty, otherwise adds the
      scalar `g` to every element of the (lazily allocated) gradient. */
  function Accumulate(r: VarRecord, g: real): (res: Result<VarRecord>)
    ensures res.Err? <==> r.dirty
    ensures res.Err? ==> res.error == DirtyVariable
    ensures res.Ok? ==> res.value == r.(grad := Some(AddScalar(GradOf(r), g)))
    ensures res.Ok? && RecordOk(r) ==> RecordOk(res.value)
  {
    if r.dirty then Err(DirtyVariable) else Ok(r.(grad := Some(AddScalar(GradOf(r), g))))
  }

  /** The record after `mark_dirty`. */
  function SetDirty(r: VarRecord): (r': VarRecord)
    ensures r'.dirty && r' == r.(dirty := true)
  {
    r.(dirty := true)
  }

  /** The record after `requires_nograd`. */
  function ClearRequiresGrad(r: VarRecord): (r': VarRecord)
    ensures !r'.requiresGrad && r' == r.(requiresGrad := false)
  {
    r.(requiresGrad := false)
  }

  /** A handle: only an identity (`Variable<T>`; the phantom `T` is not data). */
  datatype Variable = Variable(id: VarId)

  /** `Variable::default()`: the handle that refers to no record. */
  function DefaultVariable(): (v: Variable)
    ensures v.id == -1
  {
    Variable(-1)
  }

  /** `Variable::clone`: a copy of the handle, aliasing the same record. */
  function CloneVariable(v: Variable): (c: Variable)
    ensures c.id == v.id
  {
    Variable(v.id)
  }

  /** A handle of either element type (`VarKind`). */
  datatype VarKind = FloatVariable(handle: Variable) | LongVariable(handle: Variable)

  /** A record of either element type, as stored in the table (`VarKindImpl`). */
  datatype VarKindImpl = FloatRecord(record: VarRecord) | LongRecord(record: VarRecord)

  function Tag(k: VarKind): ElemKind
  {
    match k
    case FloatVariable(_) => Float
    case LongVariable(_) => Long
  }

  function ImplTag(k: VarKindImpl): ElemKind
  {
    match k
    case FloatRecord(_) => Float
    case LongRecord(_) => Long
  }

  /** A stored record's tag agrees with the kind of its data. */
  predicate ImplOk(k: VarKindImpl)
  {
    ImplTag(k) == k.record.data.kind && RecordOk(k.record)
  }

  /** `From<Variable<T>> for VarKind`: tag a handle with its element type. */
  function KindOf(v: Variable, e: ElemKind): (k: VarKind)
    ensures Tag(k) == e && k.handle == v
  {
    match e
    case Float => FloatVariable(v)
    case Long => LongVariable(v)
  }

  /** `From<VarKind> for Variable<T>` (and the by-reference form): narrowing
      succeeds exactly when the tag is the requested element type. */
  function Typed(k: VarKind, e: ElemKind): (r: Result<Variable>)
    ensures r.Ok? <==> Tag(k) == e
    ensures r.Ok? ==> r.value == k.handle
    ensures r.Err? ==> r.error == TypeMismatch
  {
    match (k, e)
    case (FloatVariable(v), Float) => Ok(v)
    case (LongVariable(v), Long) => Ok(v)
    case _ => Err(TypeMismatch)
  }

  /** `VarKind::varid`: the identity, whichever the tag. */
  function VarIdOf(k: VarKind): (id: VarId)
    ensures id == k.handle.id
  {
    match k
    case FloatVariable(v) => v.id
    case LongVariable(v) => v.id
  }

  /** `From<VariableImpl<T>> for VarKindImpl`. */
  function Wrap(r: VarRecord, e: ElemKind): (k: VarKindImpl)
    ensures ImplTag(k) == e && k.record == r
  {
    match e
    case Float => FloatRecord(r)
    case Long => LongRecord(r)
  }

  /** `From<VarKindImpl> for VariableImpl<T>`: narrowing a stored record. */
  function Narrow(k: VarKindImpl, e: ElemKind): (r: Result<VarRecord>)
    ensures r.Ok? <==> ImplTag(k) == e
    ensures r.Ok? ==> r.value == k.record
    ensures r.Err? ==> r.error == TypeMismatch
  {
    match (k, e)
    case (FloatRecord(v), Float) => Ok(v)
    case (LongRecord(v), Long) => Ok(v)
    case _ => Err(TypeMismatch)
  }

  /** Widening then narrowing a handle gives it back for its own tag and fails
      for the other; narrowing then widening gives back the tagged handle, and
      `varid` sees through the tag. */
  lemma HandleTagRoundTrip(v: Variable, e: ElemKind, other: ElemKind, k: VarKind)
    requires other != e
    ensures Typed(KindOf(v, e), e) == Ok(v)
    ensures Typed(KindOf(v, e), other) == Err(TypeMismatch)
    ensures VarIdOf(KindOf(v, e)) == v.id
    ensures KindOf(Typed(k, Tag(k)).value, Tag(k)) == k
  {
  }

  /** The same round trip for stored records. */
  lemma RecordTagRoundTrip(r: VarRecord, e: ElemKind, other: ElemKind, k: VarKindImpl)
    requires other != e
    ensures Narrow(Wrap(r, e), e) == Ok(r)
    ensures Narrow(Wrap(r, e), other) == Err(TypeMismatch)
    ensures Wrap(Narrow(k, ImplTag(k)).value, ImplTag(k)) == k
  {
  }

  /** The first `grad()` stores zeros of the data's shape; every later call
      returns that same stored tensor; the data is never changed. */
  lemma GradIsAllocatedOnce(r: VarRecord)
    ensures WithGrad(WithGrad(r)) == WithGrad(r)
    ensures GradOf(WithGrad(r)) == GradOf(r)
    ensures WithGrad(r).data == r.data
    ensures r.grad.None? ==>
              GradOf(r).shape == r.data.shape &&
              forall i :: 0 <= i < |GradOf(r).elems| ==> GradOf(r).elems[i] == 0.0
  {
  }

  /** Two backward contributions accumulate to their sum, in either order. */
  lemma AccumulateSums(r: VarRecord, g1: real, g2: real)
    requires !r.dirty
    ensures Accumulate(r, g1).Ok? && Accumulate(Accumulate(r, g1).value, g2) == Accumulate(r, g1 + g2)
    ensures Accumulate(Accumulate(r, g1).value, g2) == Accumulate(Accumulate(r, g2).value, g1)
  {
    var a := GradOf(r);
    var r1 := Accumulate(r, g1).value;
    assert GradOf(r1) == AddScalar(a, g1);
    var lhs := AddScalar(AddScalar(a, g1), g2);
    var rhs := AddScalar(a, g1 + g2);
    assert lhs.elems == rhs.elems;
    var r2 := Accumulate(r, g2).value;
    assert GradOf(r2) == AddScalar(a, g2);
    assert AddScalar(AddScalar(a, g2), g1).elems == rhs.elems;
  }

  /** Accumulating into a fresh record yields the contribution at every element. */
  lemma FirstAccumulateIsContribution(r: VarRecord, g: real)
    requires !r.dirty && r.grad.None?
    ensures var r' := Accumulate(r, g).value;
      r'.grad.Some? && r'.grad.value.shape == r.data.shape
      && forall i :: 0 <= i < |r'.grad.value.elems| ==> r'.grad.value.elems[i] == g
  {
  }

  /** A record marked dirty refuses every later accumulation. */
  lemma DirtyRefusesAccumulate(r: VarRecord, g: real)
    ensures Accumulate(SetDirty(r), g) == Err(DirtyVariable)
  {
  }

  /** The two flag updates touch only their own flag and preserve the record invariant. */
  lemma FlagUpdatesPreserveRecord(r: VarRecord)
    requires RecordOk(r)
    ensures RecordOk(SetDirty(r)) && RecordOk(ClearRequiresGrad(r))
    ensures SetDirty(r).(dirty := r.dirty) == r
    ensures ClearRequiresGrad(r).(requiresGrad := r.requiresGrad) == r
  {
  }
}
