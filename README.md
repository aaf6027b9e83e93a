# torchrs autograd core: variable arena and dropout node, in Dafny

This project models two pieces of the torchrs automatic-differentiation core.

**Variable arena and handles** (`src/autograd/variable.rs`). Every variable's state
(`VariableImpl`: data, lazily allocated gradient, producing function, and the flags
`dirty`, `volatile`, `requires_grad`) lives in one append-only table. Client code holds
handles (`Variable<T>`), which are only an integer id. A closed two-way tag
(`VarKind` / `VarKindImpl`, Float or Long) carries the element type. Narrowing the tag to a
concrete type fails on a mismatch. The model is split into three modules:
- `Variables` holds records, handles and tag conversions as pure functions.
- `Arena` holds the table as the `seq` field of class `VarTable`. Its methods update records in place. It also has the lookup and backward-entry queries as functions over the table.
- `Tensors` abstracts a tensor as an element kind, a shape and a row-major element sequence.

**Dropout function node** (`src/nn/_functions/thnn/dropout.rs`). Class `DropoutNode` keeps the
`saved_tensors` list that forward pushes onto and backward pops from. `ForwardSpec` and
`BackwardSpec` state what one call computes, and the node's methods are proved against them.
The random mask is an input (`draws`). The `Dropout2d` noise shape `[size0, size1, 1, ..., 1]`
is built by a loop, as in the source.

Every panic of the source (`panic!`, `unreachable!`, `assert_eq!`, an index out of range) is an
`Err`/`Fail` value carrying an `Error` kind (module `Wrappers`).

Three behaviours of the code worth noting:
- `backward_args` synthesises `data.new_(1)`: a one-element tensor of shape `[1]` whose content is uninitialised, not a ones tensor of the data's shape, and non-scalar data is not rejected. In `BackwardArgs` the parameter `fill` is the uninitialised element.
- An explicit gradient is handed to the engine without any shape check.
- Nothing enforces that a volatile record has no producer. `NewRecord` copies `creator` whatever `volatile` says.

## Model

| member | source | states |
|---|---|---|
| Variables.AsI32 | src/autograd/variable.rs:189-192 | `id as i32` keeps the table length exactly below 2^31 and wraps to a negative id from 2^31 to 2^32 |
| Variables.DefaultVariableArgs | src/autograd/variable.rs:332-340 | default arguments: no creator, not volatile, requires a gradient |
| Variables.NewRecord | src/autograd/variable.rs:235-248 | a fresh record keeps the data, has no gradient, is not dirty, copies `volatile`, `requires_grad` and the creator from the args, and satisfies the record invariant |
| Variables.WithGrad | src/autograd/variable.rs:249-260 | `grad()` leaves an existing gradient untouched, and otherwise stores zeros of the data's kind and shape; it never changes the data and preserves the record invariant |
| Variables.Accumulate | src/autograd/variable.rs:482-487 | `_do_backward` on a record fails with DirtyVariable exactly when the record is dirty; otherwise the gradient becomes the stored (or zero) gradient plus the scalar at every element |
| Variables.SetDirty | src/autograd/variable.rs:451-453 | `mark_dirty` sets `dirty` and changes no other field |
| Variables.ClearRequiresGrad | src/autograd/variable.rs:454-456 | `requires_nograd` clears `requires_grad` and changes no other field |
| Variables.DefaultVariable | src/autograd/variable.rs:272-279 | the default handle has id -1 |
| Variables.CloneVariable | src/autograd/variable.rs:280-287 | cloning a handle keeps its id |
| Variables.KindOf | src/autograd/variable.rs:71-80 | widening a handle tags it with its element type and keeps the handle |
| Variables.Typed | src/autograd/variable.rs:98-138 | narrowing a `VarKind` succeeds exactly when the tag equals the requested type, giving back the handle; otherwise it fails with TypeMismatch |
| Variables.VarIdOf | src/autograd/variable.rs:370-377 | `varid` returns the handle's id, whichever the tag |
| Variables.Wrap | src/autograd/variable.rs:55-64 | widening a record tags it with the requested type and keeps the record |
| Variables.Narrow | src/autograd/variable.rs:31-48 | narrowing a stored record succeeds exactly on a tag match and fails with TypeMismatch otherwise |
| Variables.HandleTagRoundTrip | src/autograd/variable.rs:66-138 | widen-then-narrow gives back the handle for its own tag and fails for the other; narrow-then-widen gives back the tagged handle; `varid` sees through the tag |
| Variables.RecordTagRoundTrip | src/autograd/variable.rs:26-64 | the same two round trips for stored records |
| Variables.GradIsAllocatedOnce | src/autograd/variable.rs:249-260 | a second `grad()` returns the tensor stored by the first; the first stores zeros of the data's shape; data is unchanged |
| Variables.AccumulateSums | src/autograd/variable.rs:482-487 | two accumulations equal one accumulation of their sum, in either order |
| Variables.FirstAccumulateIsContribution | src/autograd/variable.rs:482-487 | accumulating into a record without gradient stores the contribution at every element, in the data's shape |
| Variables.DirtyRefusesAccumulate | src/autograd/variable.rs:482-484 | a record marked dirty refuses accumulation with DirtyVariable |
| Variables.FlagUpdatesPreserveRecord | src/autograd/variable.rs:451-456 | both flag updates preserve the record invariant and differ from the old record only in their own flag |
| Arena.Lookup | src/autograd/variable.rs:169-178 | `access`/`borrow` resolves exactly when `0 <= id < |table|` and the stored tag matches, yielding the stored record; out of range gives OutOfRange, wrong tag gives TypeMismatch |
| Arena.KindFromId | src/autograd/variable.rs:82-91 | `VarKind::from(id)` succeeds exactly for ids in range and yields the stored record's tag and that id |
| Arena.KindIsVolatile | src/autograd/variable.rs:362-369 | dispatches to the handle of the tag's type: the record's `volatile`, or the lookup's error |
| Arena.KindRequiresGrad | src/autograd/variable.rs:378-385 | dispatches on the tag: the record's `requires_grad`, or the lookup's error |
| Arena.KindGradFn | src/autograd/variable.rs:386-393 | dispatches on the tag: the record's producer, or the lookup's error |
| Arena.KindData | src/autograd/variable.rs:394-401 | dispatches on the tag: the record's data, or the lookup's error |
| Arena.BackwardArgs | src/autograd/variable.rs:461-481 | fails with InvalidBackward on a volatile record, then with NoGradRequired when no gradient is required; only otherwise calls the engine with the handle, the flag, and the given gradient or a synthesised shape-`[1]` one of the data's kind |
| Arena.Backward | src/autograd/variable.rs:488-490 | `backward()` passes on lookup errors, fails with InvalidBackward on a volatile record and then with NoGradRequired; it succeeds exactly on a resolvable, non-volatile record that requires a gradient, without retaining variables and with a shape-`[1]` gradient |
| Arena.VarTable.constructor | src/autograd/variable.rs:9-11 | the table starts empty and valid |
| Arena.VarTable.NewArgs | src/autograd/variable.rs:180-193 | appends exactly one fresh record tagged with the data's kind; earlier records unchanged; the id is the old length (as i32); validity kept |
| Arena.VarTable.New | src/autograd/variable.rs:424-426 | `new_args` with the default arguments |
| Arena.VarTable.KindNewArgs | src/autograd/variable.rs:353-360 | allocates by the data's kind and returns the handle tagged with that kind |
| Arena.VarTable.MarkDirty | src/autograd/variable.rs:451-453 | on a resolvable handle only that record's `dirty` becomes true; otherwise fails and changes nothing |
| Arena.VarTable.RequiresNograd | src/autograd/variable.rs:454-456 | on a resolvable handle only that record's `requires_grad` becomes false; otherwise fails and changes nothing |
| Arena.VarTable.KindRequiresNograd | src/autograd/variable.rs:410-417 | the same update reached through the tag |
| Arena.VarTable.Grad | src/autograd/variable.rs:249-260 | returns the stored gradient, allocating zeros first if absent; only that record changes |
| Arena.VarTable.DoBackward | src/autograd/variable.rs:482-487 | fails on a dirty record and changes nothing; otherwise replaces only that record by its accumulation |
| Arena.AllocationAppends | src/autograd/variable.rs:207-220 | after a push the new id resolves to the fresh record and every earlier handle resolves as before |
| Arena.DefaultHandleNeverResolves | src/autograd/variable.rs:272-279 | the default handle fails with OutOfRange in every table |
| Arena.CloneAliases | src/autograd/variable.rs:280-287 | a clone resolves to the same record as its original |
| Arena.UpdateIsLocal | src/autograd/variable.rs:170-174 | writing back one record leaves every other id's lookup unchanged |
| Arena.KindFromIdResolves | src/autograd/variable.rs:82-91 | a `VarKind` built from an id in range never mismatches: its accessors reach the stored record |
| Arena.DefaultVariableAcceptsBackward | src/autograd/variable.rs:332-340 | a variable just made with default arguments accepts `backward()` |
| Arena.NogradRefusesBackward | src/autograd/variable.rs:469-471 | after `requires_nograd`, `backward()` on a non-volatile variable fails with NoGradRequired |
| Arena.MarkDirtyRefusesAccumulate | src/autograd/variable.rs:482-484 | after `mark_dirty`, `_do_backward` on that variable fails with DirtyVariable |
| Dropout.DefaultDropoutArgs | src/nn/_functions/thnn/dropout.rs:5-20 | defaults are `p = 0.5`, `training = false`, `inplace = false` |
| Dropout.NoiseShapeCovers | src/nn/_functions/thnn/dropout.rs:71-84 | the noise has the input's rank: the input's shape for Dropout1d; for Dropout2d `size0`, `size1`, then ones. Noise elements times plane size equals input elements |
| Dropout.Expand | src/nn/_functions/thnn/dropout.rs:44 | the expanded noise has the input's shape and repeats each mask element over one plane |
| Dropout.NoiseTensor | src/nn/_functions/thnn/dropout.rs:41-44 | the expanded noise has the input's kind, shape and size, and element i is the sampled mask value of its plane (`draws[i / plane]`); it fails exactly when the noise shape cannot be formed |
| Dropout.ForwardSpec | src/nn/_functions/thnn/dropout.rs:30-50 | inactive: output is the input and nothing is saved; active: the saved noise is the sampled mask expanded over planes (`draws[i / plane]`), output is input times that noise at every element, and failure happens only when the noise shape cannot be formed |
| Dropout.BackwardSpec | src/nn/_functions/thnn/dropout.rs:51-66 | an absent gradient stays absent; inactive passes the gradient through; active multiplies it elementwise by the noise and fails only on a size mismatch |
| Dropout.InactiveIsIdentity | src/nn/_functions/thnn/dropout.rs:40-63 | when not `p > 0 && training`, forward and backward are both the identity |
| Dropout.DefaultArgsAreIdentity | src/nn/_functions/thnn/dropout.rs:8-20 | with default arguments the node is inactive and forward is the identity |
| Dropout.MaskAgreement | src/nn/_functions/thnn/dropout.rs:40-63 | the noise forward saves is the one backward applies: every element forward zeroes is zeroed in the gradient too |
| Dropout.OutputIsDroppedOrScaled | src/nn/_functions/thnn/dropout.rs:41-45 | with a Bernoulli mask scaled by `1/(1-p)`, each output element is 0 or input/(1-p); for `p = 0.5`, 0 or twice the input |
| Dropout.PlanesDropTogether | src/nn/_functions/thnn/dropout.rs:76-84 | Dropout2d multiplies every element of one plane by the same noise value |
| Dropout.DropoutNode.constructor | src/nn/_functions/thnn/dropout.rs:22-23 | a new node has its arguments, nothing saved, and nothing marked dirty |
| Dropout.DropoutNode.MakeNoise | src/nn/_functions/thnn/dropout.rs:71-84 | the loop builds exactly the noise shape of the input's rank; Dropout2d on rank below 2 fails |
| Dropout.DropoutNode.DropoutForward | src/nn/_functions/thnn/dropout.rs:30-50 | returns `[noise, output]` when active and `[output]` otherwise, as ForwardSpec says; with `inplace` marks dirty and `input[0]` becomes the output; without it the input is unchanged |
| Dropout.DropoutNode.DropoutBackward | src/nn/_functions/thnn/dropout.rs:51-66 | returns `[BackwardSpec]`; when active the incoming gradient slot is overwritten by the product; other slots unchanged |
| Dropout.DropoutNode.Forward | src/nn/_functions/thnn/dropout.rs:86-93 | returns `[output]`; pushes the noise as the only new saved tensor exactly when active, and pushes nothing otherwise |
| Dropout.DropoutNode.Backward | src/nn/_functions/thnn/dropout.rs:94-99 | fails on an empty saved list; otherwise removes exactly `saved_tensors[0]` whatever the gradient, and returns BackwardSpec with it |
| Dropout.InactiveForwardThenBackward | src/nn/_functions/thnn/dropout.rs:86-99 | for every inactive configuration (not training, `p <= 0`, with or without `inplace`), forward returns the input and the following backward fails because nothing was saved |
| Dropout.TrainingForwardThenBackward | src/nn/_functions/thnn/dropout.rs:86-99 | a training forward returns input times noise, and the following backward returns gradient times that same noise |

## Left out

- The execution engine (`ExecutionEngine::run_backward`) is not part of this model. `BackwardArgs` returns the call it would make as an `EngineCall` value. The graph traversal, gradient summation across consumers and graph freeing are not modelled.
- Tensors are a kind, a shape and a sequence of reals. f32 rounding, i64 wrap-around, strides, storage sharing and devices are not modelled. Tensor identities (`VarKind::tid`) are not modelled either.
- The kernels `new_`, `zero_`, `add_`, `mult_`, `expand_as`, `resize_as_`, `copy` become the functions `Zeros`, `AddScalar`, `Mult` and `Expand`. A size mismatch in `mult_` is the ShapeMismatch error.
- Mask sampling (`bernoulli_(1 - p)` and `div_(1 - p)`) is random and floating point. Its values are the parameter `draws`.
- The thread-local `VAR_TABLE` and its `unsafe` raw-pointer access are one `VarTable` object. Handing out `&mut VariableImpl` is modelled by the specific update methods (`MarkDirty`, `RequiresNograd`, `Grad`, `DoBackward`). Aliasing through the returned reference is not captured.
- Arena.VarTable.DoBackward: `_call_hooks` is `unimplemented!()`. As written, every call that passes the dirty check panics before accumulating. The model treats the hooks as doing nothing and accumulates.
- Variables.Accumulate: models the same `_do_backward` lines, so the same holds: as written, a clean record panics at `_call_hooks` before accumulating; the model treats the hooks as doing nothing and accumulates.
- Arena.BackwardArgs: the content of the `new_(1)` tensor is uninitialised memory, so it is the parameter `fill`.
- The `default fn` arms that panic for any other element type cannot be reached, because the model has exactly two element kinds. The `_ => unimplemented!()` arms of the `VarKind` matches cannot be reached either.
- `From<u32>`, `From<i32>`, `From<&i32>` and `From<usize>` for `Variable`, plus `data_borrow`, `apply` and `VarKind` clone, are trivial constructors or accessors and are not modelled. `view`, `detach`, `detach_`, `Index` and the `AddAssign` built on it are `unimplemented!()` stubs.
- The function-node machinery (`impl_func_args!`, `FuncIntf`, `mark_dirty` on a node) is in files not part of this model. Marking the input dirty is modelled as the node's `dirtyMarked` flag. How the engine turns that into record flags is not modelled.
- With `inplace`, the output aliases `input[0]`. The model writes the product back into `input[0]`, but it does not capture later writes through either alias.
- The `println!` logging in dropout backward and the builder derive macros are not modelled.
- `src/nn/_functions/thnn/loss.rs` holds only unimplemented stubs and argument defaults. `src/nn/modules/convolution.rs` is a layer wrapper holding only builder defaults. Neither is modelled.
