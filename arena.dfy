/** The per-thread table of variable records and the operations that reach a
    record through a handle. The table is append-only: a handle's id is the
    table length at the moment its record was pushed. */
module Arena {
  import opened Wrappers
  import opened Tensors
  import opened Variables

  type Table = seq<VarKindImpl>

  /** Every stored record is consistent with its tag. */
  predicate TableOk(t: Table)
  {
    forall i :: 0 <= i < |t| ==> ImplOk(t[i])
  }

  /** `access` / `borrow` on a handle of element type `e`: index the table by
      the id, then narrow the stored record to `e`. */
  function Lookup(t: Table, v: Variable, e: ElemKind): (r: Result<VarRecord>)
    ensures r.Ok? <==> 0 <= v.id < |t| && ImplTag(t[v.id]) == e
    ensures r.Ok? ==> r.value == t[v.id].record
    ensures r.Err? ==> r.error == (if 0 <= v.id < |t| then TypeMismatch else OutOfRange)
  {
    if 0 <= v.id < |t| then Narrow(t[v.id], e) else Err(OutOfRange)
  }

  /** `From<VarId> for VarKind`: the handle tagged with the stored record's tag. */
  function KindFromId(t: Table, id: VarId): (r: Result<VarKind>)
    ensures r.Ok? <==> 0 <= id < |t|
    ensures r.Ok? ==> Tag(r.value) == ImplTag(t[id]) && VarIdOf(r.value) == id
    ensures r.Err? ==> r.error == OutOfRange
  {
    if 0 <= id < |t| then
      match t[id]
      case FloatRecord(_) => Ok(KindOf(Variable(id), Float))
      case LongRecord(_) => Ok(KindOf(Variable(id), Long))
    else Err(OutOfRange)
  }

  /** `VarKind::is_volatile`: dispatches to the handle of the tag's type. */
  function KindIsVolatile(t: Table, k: VarKind): (r: Result<bool>)
    ensures r.Ok? <==> Lookup(t, k.handle, Tag(k)).Ok?
    ensures r.Ok? ==> r.value == Lookup(t, k.handle, Tag(k)).value.volatile
    ensures r.Err? ==> r.error == Lookup(t, k.handle, Tag(k)).error
  {
    match k
    case FloatVariable(v) => (match Lookup(t, v, Float) case Ok(rec) => Ok(rec.volatile) case Err(e) => Err(e))
    case LongVariable(v) => (match Lookup(t, v, Long) case Ok(rec) => Ok(rec.volatile) case Err(e) => Err(e))
  }

  /** `VarKind::requires_grad`. */
  function KindRequiresGrad(t: Table, k: VarKind): (r: Result<bool>)
    ensures r.Ok? <==> Lookup(t, k.handle, Tag(k)).Ok?
    ensures r.Ok? ==> r.value == Lookup(t, k.handle, Tag(k)).value.requiresGrad
    ensures r.Err? ==> r.error == Lookup(t, k.handle, Tag(k)).error
  {
    match k
    case FloatVariable(v) => (match Lookup(t, v, Float) case Ok(rec) => Ok(rec.requiresGrad) case Err(e) => Err(e))
    case LongVariable(v) => (match Lookup(t, v, Long) case Ok(rec) => Ok(rec.requiresGrad) case Err(e) => Err(e))
  }

  /** `VarKind::grad_fn`. */
  function KindGradFn(t: Table, k: VarKind): (r: Result<Option<FuncRef>>)
    ensures r.Ok? <==> Lookup(t, k.handle, Tag(k)).Ok?
    ensures r.Ok? ==> r.value == Lookup(t, k.handle, Tag(k)).value.gradFn
    ensures r.Err? ==> r.error == Lookup(t, k.handle, Tag(k)).error
  {
    match k
    case FloatVariable(v) => (match Lookup(t, v, Float) case Ok(rec) => Ok(rec.gradFn) case Err(e) => Err(e))
    case LongVariable(v) => (match Lookup(t, v, Long) case Ok(rec) => Ok(rec.gradFn) case Err(e) => Err(e))
  }

  /** `VarKind::data`: a copy of the record's data. */
  function KindData(t: Table, k: VarKind): (r: Result<Tensor>)
    ensures r.Ok? <==> Lookup(t, k.handle, Tag(k)).Ok?
    ensures r.Ok? ==> r.value == Lookup(t, k.handle, Tag(k)).value.data
    ensures r.Err? ==> r.error == Lookup(t, k.handle, Tag(k)).error
  {
    match k
    case FloatVariable(v) => (match Lookup(t, v, Float) case Ok(rec) => Ok(rec.data) case Err(e) => Err(e))
    case LongVariable(v) => (match Lookup(t, v, Long) case Ok(rec) => Ok(rec.data) case Err(e) => Err(e))
  }

  /** What `backward_args` hands to the execution engine. */
  datatype EngineCall = RunBackward(start: Variable, kind: ElemKind, gradient: Tensor, retainVariables: bool)

  /** `backward_args`: refuses a volatile record, then one that does not
      require a gradient, and only then passes a gradient to the engine. With
      no gradient supplied it synthesises `data.new_(1)`, a one-element tensor
      of the data's kind whose (uninitialised) element is `fill`. */
  function BackwardArgs(t: Table, v: Variable, e: ElemKind, gradient: Option<Tensor>,
                        retainVariables: bool, fill: real): (r: Result<EngineCall>)
    ensures Lookup(t, v, e).Err? ==> r == Err(Lookup(t, v, e).error)
    ensures Lookup(t, v, e).Ok? && Lookup(t, v, e).value.volatile ==> r == Err(InvalidBackward)
    ensures Lookup(t, v, e).Ok? && !Lookup(t, v, e).value.volatile && !Lookup(t, v, e).value.requiresGrad ==>
              r == Err(NoGradRequired)
    ensures r.Ok? <==> Lookup(t, v, e).Ok? && !Lookup(t, v, e).value.volatile && Lookup(t, v, e).value.requiresGrad
    ensures r.Ok? ==> r.value.start == v && r.value.kind == e && r.value.retainVariables == retainVariables
    ensures r.Ok? && gradient.Some? ==> r.value.gradient == gradient.value
    ensures r.Ok? && gradient.None? ==>
              r.value.gradient.shape == [1] && r.value.gradient.kind == Lookup(t, v, e).value.data.kind
  {
    match Lookup(t, v, e)
    case Err(err) => Err(err)
    case Ok(rec) =>
      if rec.volatile then Err(InvalidBackward)
      else if !rec.requiresGrad then Err(NoGradRequired)
      else
        var g: Tensor := match gradient
          case Some(g) => g
          case None => Tensor(rec.data.kind, [1], [fill]);
        Ok(RunBackward(v, e, g, retainVariables))
  }

  /** `backward()`: `backward_args(None, false)`. */
  function Backward(t: Table, v: Variable, e: ElemKind, fill: real): (r: Result<EngineCall>)
    ensures r.Ok? <==> Lookup(t, v, e).Ok? && !Lookup(t, v, e).value.volatile && Lookup(t, v, e).value.requiresGrad
    ensures Lookup(t, v, e).Err? ==> r == Err(Lookup(t, v, e).error)
    ensures Lookup(t, v, e).Ok? && Lookup(t, v, e).value.volatile ==> r == Err(InvalidBackward)
    ensures Lookup(t, v, e).Ok? && !Lookup(t, v, e).value.volatile && !Lookup(t, v, e).value.requiresGrad ==>
              r == Err(NoGradRequired)
    ensures r.Ok? ==> r.value.start == v && !r.value.retainVariables && r.value.gradient.shape == [1]
  {
    BackwardArgs(t, v, e, None, false, fill)
  }

  /** The arena: the one owner of every variable record. */
  class VarTable {
    var table: Table

    predicate Valid()
      reads this
    {
      TableOk(table)
    }

    constructor ()
      ensures Valid() && table == []
    {
      table := [];
    }

    /** `Variable::<T>::new_args`: push a fresh record, return the old length as id. */
    method NewArgs(data: Tensor, args: VariableArgs) returns (v: Variable)
      requires Valid()
      modifies this
      ensures Valid()
      ensures table == old(table) + [Wrap(NewRecord(data, args), data.kind)]
      ensures v.id == AsI32(|old(table)|)
    {
      var value := NewRecord(data, args);
      var id := |table|;
      table := table + [Wrap(value, data.kind)];
      v := Variable(AsI32(id));
    }

    /** `Variable::new`: `new_args` with the default arguments. */
    method New(data: Tensor) returns (v: Variable)
      requires Valid()
      modifies this
      ensures Valid()
      ensures table == old(table) + [Wrap(NewRecord(data, DefaultVariableArgs()), data.kind)]
      ensures v.id == AsI32(|old(table)|)
    {
      v := NewArgs(data, DefaultVariableArgs());
    }

    /** `VarKind::new_args`: allocate by the data's element kind and tag the handle. */
    method KindNewArgs(data: Tensor, args: VariableArgs) returns (k: VarKind)
      requires Valid()
      modifies this
      ensures Valid()
      ensures table == old(table) + [Wrap(NewRecord(data, args), data.kind)]
      ensures k == KindOf(Variable(AsI32(|old(table)|)), data.kind)
    {
      var v := NewArgs(data, args);
      k := KindOf(v, data.kind);
    }

    /** `mark_dirty`: sets the record's `dirty` flag and nothing else. */
    method MarkDirty(v: Variable, e: ElemKind) returns (r: Outcome)
      requires Valid()
      modifies this
      ensures Valid()
      ensures Lookup(old(table), v, e).Err? ==>
                r == Fail(Lookup(old(table), v, e).error) && table == old(table)
      ensures Lookup(old(table), v, e).Ok? ==>
                r == Pass && table == old(table)[v.id := Wrap(SetDirty(Lookup(old(table), v, e).value), e)]
    {
      var rec := Lookup(table, v, e);
      if rec.Err? {
        r := Fail(rec.error);
      } else {
        table := table[v.id := Wrap(SetDirty(rec.value), e)];
        r := Pass;
      }
    }

    /** `requires_nograd`: clears the record's `requires_grad` flag and nothing else. */
    method RequiresNograd(v: Variable, e: ElemKind) returns (r: Outcome)
      requires Valid()
      modifies this
      ensures Valid()
      ensures Lookup(old(table), v, e).Err? ==>
                r == Fail(Lookup(old(table), v, e).error) && table == old(table)
      ensures Lookup(old(table), v, e).Ok? ==>
                r == Pass && table == old(table)[v.id := Wrap(ClearRequiresGrad(Lookup(old(table), v, e).value), e)]
    {
      var rec := Lookup(table, v, e);
      if rec.Err? {
        r := Fail(rec.error);
      } else {
        table := table[v.id := Wrap(ClearRequiresGrad(rec.value), e)];
        r := Pass;
      }
    }

    /** `VarKind::requires_nograd`: dispatches on the tag. */
    method KindRequiresNograd(k: VarKind) returns (r: Outcome)
      requires Valid()
      modifies this
      ensures Valid()
      ensures Lookup(old(table), k.handle, Tag(k)).Err? ==>
                r == Fail(Lookup(old(table), k.handle, Tag(k)).error) && table == old(table)
      ensures Lookup(old(table), k.handle, Tag(k)).Ok? ==>
                r == Pass &&
                table == old(table)[k.handle.id := Wrap(ClearRequiresGrad(Lookup(old(table), k.handle, Tag(k)).value), Tag(k))]
    {
      match k
      case FloatVariable(v) => r := RequiresNograd(v, Float);
      case LongVariable(v) => r := RequiresNograd(v, Long);
    }

    /** `VariableImpl::grad` reached through a handle: allocates a zero
        gradient on first use and returns the stored gradient. */
    method Grad(v: Variable, e: ElemKind) returns (r: Result<Tensor>)
      requires Valid()
      modifies this
      ensures Valid()
      ensures Lookup(old(table), v, e).Err? ==>
                r == Err(Lookup(old(table), v, e).error) && table == old(table)
      ensures Lookup(old(table), v, e).Ok? ==>
                var rec := Lookup(old(table), v, e).value;
                r == Ok(GradOf(rec)) && table == old(table)[v.id := Wrap(WithGrad(rec), e)]
    {
      var rec := Lookup(table, v, e);
      if rec.Err? {
        r := Err(rec.error);
      } else {
        var withGrad := WithGrad(rec.value);
        table := table[v.id := Wrap(withGrad, e)];
        r := Ok(withGrad.grad.value);
      }
    }

    /** `_do_backward`: refuses a dirty record, otherwise adds `gradOutput`
        to every element of the lazily allocated gradient. */
    method DoBackward(v: Variable, e: ElemKind, gradOutput: real) returns (r: Outcome)
      requires Valid()
      modifies this
      ensures Valid()
      ensures Lookup(old(table), v, e).Err? ==>
                r == Fail(Lookup(old(table), v, e).error) && table == old(table)
      ensures Lookup(old(table), v, e).Ok? && Lookup(old(table), v, e).value.dirty ==>
                r == Fail(DirtyVariable) && table == old(table)
      ensures Lookup(old(table), v, e).Ok? && !Lookup(old(table), v, e).value.dirty ==>
                r == Pass &&
                table == old(table)[v.id := Wrap(Accumulate(Lookup(old(table), v, e).value, gradOutput).value, e)]
    {
      var rec := Lookup(table, v, e);
      if rec.Err? {
        r := Fail(rec.error);
      } else {
        var updated := Accumulate(rec.value, gradOutput);
        if updated.Err? {
          r := Fail(updated.error);
        } else {
          table := table[v.id := Wrap(updated.value, e)];
          r := Pass;
        }
      }
    }
  }

  /** Allocation appends one record: every earlier handle resolves as before,
      and the new handle resolves to the fresh record. */
  lemma AllocationAppends(t: Table, rec: VarRecord, e: ElemKind, v: Variable, e': ElemKind)
    requires |t| < 0x8000_0000
    ensures Lookup(t + [Wrap(rec, e)], Variable(AsI32(|t|)), e) == Ok(rec)
    ensures 0 <= v.id < |t| ==> Lookup(t + [Wrap(rec, e)], v, e') == Lookup(t, v, e')
  {
  }

  /** The default handle (`id = -1`) never resolves, whatever the table. */
  lemma DefaultHandleNeverResolves(t: Table, e: ElemKind)
    ensures Lookup(t, DefaultVariable(), e) == Err(OutOfRange)
  {
  }

  /** A clone aliases its original: both resolve to the same record. */
  lemma CloneAliases(t: Table, v: Variable, e: ElemKind)
    ensures Lookup(t, CloneVariable(v), e) == Lookup(t, v, e)
  {
  }

  /** Writing one record back leaves every other handle's record untouched. */
  lemma UpdateIsLocal(t: Table, v: Variable, e: ElemKind, rec: VarRecord, w: Variable, e': ElemKind)
    requires Lookup(t, v, e).Ok?
    ensures w.id != v.id ==> Lookup(t[v.id := Wrap(rec, e)], w, e') == Lookup(t, w, e')
    ensures Lookup(t[v.id := Wrap(rec, e)], v, e) == Ok(rec)
  {
  }

  /** A `VarKind` rebuilt from an id always carries the stored record's tag, so
      every accessor reached through it resolves. */
  lemma KindFromIdResolves(t: Table, id: VarId)
    requires 0 <= id < |t|
    ensures var k := KindFromId(t, id).value;
      Lookup(t, k.handle, Tag(k)) == Ok(t[id].record) &&
      KindIsVolatile(t, k) == Ok(t[id].record.volatile) &&
      KindRequiresGrad(t, k) == Ok(t[id].record.requiresGrad)
  {
  }

  /** A variable made with the default arguments accepts `backward()`. */
  lemma DefaultVariableAcceptsBackward(t: Table, data: Tensor, fill: real)
    requires |t| < 0x8000_0000
    ensures var t' := t + [Wrap(NewRecord(data, DefaultVariableArgs()), data.kind)];
      Backward(t', Variable(AsI32(|t|)), data.kind, fill).Ok?
  {
    AllocationAppends(t, NewRecord(data, DefaultVariableArgs()), data.kind, Variable(AsI32(|t|)), data.kind);
  }

  /** After `requires_nograd` a non-volatile variable refuses `backward()`. */
  lemma NogradRefusesBackward(t: Table, v: Variable, e: ElemKind, fill: real)
    requires Lookup(t, v, e).Ok? && !Lookup(t, v, e).value.volatile
    ensures Backward(t[v.id := Wrap(ClearRequiresGrad(Lookup(t, v, e).value), e)], v, e, fill) == Err(NoGradRequired)
  {
    UpdateIsLocal(t, v, e, ClearRequiresGrad(Lookup(t, v, e).value), v, e);
  }

  /** After `mark_dirty` the variable refuses `_do_backward`. */
  lemma MarkDirtyRefusesAccumulate(t: Table, v: Variable, e: ElemKind, g: real)
    requires Lookup(t, v, e).Ok?
    ensures var t' := t[v.id := Wrap(SetDirty(Lookup(t, v, e).value), e)];
      Lookup(t', v, e).Ok? && Accumulate(Lookup(t', v, e).value, g) == Err(DirtyVariable)
  {
  }
}
