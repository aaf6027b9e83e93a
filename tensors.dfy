/** The tensor library, abstracted: a tensor is its element kind, its shape
    and its elements in row-major order. Only the handful of kernels the core
    calls are modelled. */
module Tensors {

  /** The two element types the core supports (`f32` and `i64`). */
  datatype ElemKind = Float | Long

  /** Number of elements of a tensor of the given shape (1 for rank 0). */
  function Product(shape: seq<nat>): nat
  {
    if |shape| == 0 then 1 else shape[0] * Product(shape[1..])
  }

  datatype RawTensor = Tensor(kind: ElemKind, shape: seq<nat>, elems: seq<real>)

  /** A well-formed tensor holds exactly as many elements as its shape says. */
  type Tensor = t: RawTensor | |t.elems| == Product(t.shape)
    witness Tensor(Float, [], [0.0])

  /** `Tensor::new(size).zero_()`: a zero-filled tensor of the given shape. */
  function Zeros(kind: ElemKind, shape: seq<nat>): (t: Tensor)
    ensures t.kind == kind && t.shape == shape
    ensures forall i :: 0 <= i < |t.elems| ==> t.elems[i] == 0.0
  {
    Tensor(kind, shape, seq(Product(shape), _ => 0.0))
  }

  /** `t.add_(x)` for a scalar `x`: adds `x` to every element. */
  function AddScalar(t: Tensor, x: real): (r: Tensor)
    ensures r.kind == t.kind && r.shape == t.shape && |r.elems| == |t.elems|
    ensures forall i :: 0 <= i < |r.elems| ==> r.elems[i] == t.elems[i] + x
  {
    Tensor(t.kind, t.shape, seq(|t.elems|, i requires 0 <= i < |t.elems| => t.elems[i] + x))
  }

  /** `a.mult_(b)`: elementwise product, keeping `a`'s kind and shape. */
  function Mult(a: Tensor, b: Tensor): (r: Tensor)
    requires |a.elems| == |b.elems|
    ensures r.kind == a.kind && r.shape == a.shape && |r.elems| == |a.elems|
    ensures forall i :: 0 <= i < |r.elems| ==> r.elems[i] == a.elems[i] * b.elems[i]
  {
    Tensor(a.kind, a.shape, seq(|a.elems|, i requires 0 <= i < |a.elems| => a.elems[i] * b.elems[i]))
  }
}
