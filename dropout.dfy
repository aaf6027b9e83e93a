/** The dropout function node (`Dropout1d`, `Dropout2d`) and its saved-tensor
    protocol. The random mask is not sampled here: the values that
    `bernoulli_(1 - p).div_(1 - p)` would write into the noise tensor are the
    parameter `draws`. */
module Dropout {
  import opened Wrappers
  import opened Tensors

  datatype DropoutArgs = DropoutArgs(p: real, training: bool, inplace: bool)

  /** `DropoutArgs::default()`. */
  function DefaultDropoutArgs(): (a: DropoutArgs)
    ensures a.p == 0.5 && !a.training && !a.inplace
  {
    DropoutArgs(0.5, false, false)
  }

  /** The node masks only when `p > 0 && training`. */
  predicate Active(a: DropoutArgs)
  {
    a.p > 0.0 && a.training
  }

  /** The two nodes differ only in the shape of the noise they draw. */
  datatype Variant = Dropout1d | Dropout2d

  function Ones(n: nat): (r: seq<nat>)
    ensures |r| == n && forall i :: 0 <= i < n ==> r[i] == 1
  {
    seq(n, _ => 1)
  }

  /** Shape of the noise tensor `make_noise` allocates: the input's shape for
      `Dropout1d`; `[size[0], size[1], 1, ..., 1]` for `Dropout2d`, which
      cannot index `size()[1]` of an input of rank below 2. */
  function NoiseShape(variant: Variant, shape: seq<nat>): Result<seq<nat>>
  {
    match variant
    case Dropout1d => Ok(shape)
    case Dropout2d =>
      if |shape| < 2 then Err(IndexOutOfBounds)
      else Ok([shape[0], shape[1]] + Ones(|shape| - 2))
  }

  /** How many consecutive input elements `expand_as` maps onto one noise element. */
  function PlaneSize(variant: Variant, shape: seq<nat>): nat
  {
    match variant
    case Dropout1d => 1
    case Dropout2d => if |shape| < 2 then 1 else Product(shape[2..])
  }

  lemma {:induction false} ProductOfOnes(n: nat)
    ensures Product(Ones(n)) == 1
  {
    if n > 0 {
      assert Ones(n)[1..] == Ones(n - 1);
      ProductOfOnes(n - 1);
    }
  }

  /** The noise has the input's rank, keeps the first two sizes of a
      `Dropout2d` input and is 1 elsewhere; expanding each noise element over
      a plane covers the input exactly. */
  lemma NoiseShapeCovers(variant: Variant, shape: seq<nat>)
    requires NoiseShape(variant, shape).Ok?
    ensures var ns := NoiseShape(variant, shape).value;
      && |ns| == |shape|
      && Product(ns) * PlaneSize(variant, shape) == Product(shape)
      && (variant == Dropout1d ==> ns == shape)
      && (variant == Dropout2d ==>
            ns[0] == shape[0] && ns[1] == shape[1] && forall k :: 2 <= k < |ns| ==> ns[k] == 1)
  {
    if variant == Dropout2d {
      var ns := NoiseShape(variant, shape).value;
      var rest := Ones(|shape| - 2);
      ProductOfOnes(|shape| - 2);
      assert ns[1..] == [shape[1]] + rest;
      assert ns[1..][1..] == rest;
      assert Product(ns) == shape[0] * shape[1];
      assert shape[1..][1..] == shape[2..];
      var p := Product(shape[2..]);
      assert Product(shape) == shape[0] * (shape[1] * p);
      assert shape[0] * (shape[1] * p) == (shape[0] * shape[1]) * p;
    }
  }

  lemma DivBelow(i: nat, plane: nat, n: nat)
    requires i < n * plane
    ensures i / plane < n
  {
  }

  /** Index of the noise element that input element `i` is multiplied by. */
  function PlaneIndex(i: nat, plane: nat, n: nat): (j: nat)
    requires i < n * plane
    ensures j == i / plane && j < n
  {
    DivBelow(i, plane, n);
    i / plane
  }

  /** `expand_as`: repeats each element of `mask` over `plane` consecutive positions. */
  function Expand(mask: seq<real>, plane: nat, kind: ElemKind, shape: seq<nat>): (t: Tensor)
    requires |mask| * plane == Product(shape)
    ensures t.kind == kind && t.shape == shape
    ensures forall i :: 0 <= i < |t.elems| ==> t.elems[i] == mask[PlaneIndex(i, plane, |mask|)]
  {
    Tensor(kind, shape, seq(Product(shape), i requires 0 <= i < Product(shape) => mask[PlaneIndex(i, plane, |mask|)]))
  }

  /** The sampled values fill a noise tensor of the shape `make_noise` allocates. */
  predicate MaskFits(args: DropoutArgs, variant: Variant, shape: seq<nat>, draws: seq<real>)
  {
    Active(args) && NoiseShape(variant, shape).Ok? ==> |draws| == Product(NoiseShape(variant, shape).value)
  }

  /** The noise `dropout_forward` multiplies by: the sampled mask expanded to the input's shape. */
  function NoiseTensor(args: DropoutArgs, variant: Variant, x: Tensor, draws: seq<real>): (r: Result<Tensor>)
    requires Active(args) && MaskFits(args, variant, x.shape, draws)
    ensures r.Err? <==> NoiseShape(variant, x.shape).Err?
    ensures r.Err? ==> r.error == IndexOutOfBounds
    ensures r.Ok? ==> r.value.kind == x.kind && r.value.shape == x.shape && |r.value.elems| == |x.elems|
    ensures r.Ok? ==>
              && |r.value.elems| == |draws| * PlaneSize(variant, x.shape)
              && forall i :: 0 <= i < |r.value.elems| ==>
                   r.value.elems[i] == draws[PlaneIndex(i, PlaneSize(variant, x.shape), |draws|)]
  {
    match NoiseShape(variant, x.shape)
    case Err(e) => Err(e)
    case Ok(ns) =>
      NoiseShapeCovers(variant, x.shape);
      Ok(Expand(draws, PlaneSize(variant, x.shape), x.kind, x.shape))
  }

  /** What one forward call produces: its output and the tensor it saves for backward. */
  datatype Forwarded = Forwarded(output: Tensor, saved: Option<Tensor>)

  /** Forward: the input unchanged when inactive; otherwise the input times
      the noise, with the noise saved. */
  function ForwardSpec(args: DropoutArgs, variant: Variant, x: Tensor, draws: seq<real>): (r: Result<Forwarded>)
    requires MaskFits(args, variant, x.shape, draws)
    ensures !Active(args) ==> r == Ok(Forwarded(x, None))
    ensures Active(args) ==> (r.Ok? <==> NoiseShape(variant, x.shape).Ok?)
    ensures Active(args) && r.Ok? ==>
              && r.value.saved.Some?
              && r.value.output.shape == x.shape && r.value.saved.value.shape == x.shape
              && |r.value.output.elems| == |x.elems| == |r.value.saved.value.elems|
              && forall i :: 0 <= i < |x.elems| ==>
                   r.value.output.elems[i] == x.elems[i] * r.value.saved.value.elems[i]
    ensures Active(args) && r.Ok? ==>
              && |r.value.saved.value.elems| == |draws| * PlaneSize(variant, x.shape)
              && forall i :: 0 <= i < |r.value.saved.value.elems| ==>
                   r.value.saved.value.elems[i] == draws[PlaneIndex(i, PlaneSize(variant, x.shape), |draws|)]
  {
    if !Active(args) then Ok(Forwarded(x, None))
    else
      match NoiseTensor(args, variant, x, draws)
      case Err(e) => Err(e)
      case Ok(n) => Ok(Forwarded(Mult(x, n), Some(n)))
  }

  /** Backward on one incoming gradient: absent stays absent; when active the
      gradient is multiplied by the saved noise, otherwise passed through. */
  function BackwardSpec(args: DropoutArgs, grad: Option<Tensor>, noise: Tensor): (r: Result<Option<Tensor>>)
    ensures grad.None? ==> r == Ok(None)
    ensures grad.Some? && !Active(args) ==> r == Ok(grad)
    ensures grad.Some? && Active(args) ==> (r.Ok? <==> |grad.value.elems| == |noise.elems|)
    ensures grad.Some? && Active(args) && r.Ok? ==>
              && r.value.Some? && r.value.value.shape == grad.value.shape
              && |r.value.value.elems| == |grad.value.elems|
              && forall i :: 0 <= i < |grad.value.elems| ==>
                   r.value.value.elems[i] == grad.value.elems[i] * noise.elems[i]
  {
    match grad
    case None => Ok(None)
    case Some(g) =>
      if !Active(args) then Ok(Some(g))
      else if |g.elems| != |noise.elems| then Err(ShapeMismatch)
      else Ok(Some(Mult(g, noise)))
  }

  /** Not training, or `p = 0`: forward and backward are both the identity. */
  lemma InactiveIsIdentity(args: DropoutArgs, variant: Variant, x: Tensor, draws: seq<real>,
                           grad: Option<Tensor>, noise: Tensor)
    requires !Active(args)
    ensures ForwardSpec(args, variant, x, draws) == Ok(Forwarded(x, None))
    ensures BackwardSpec(args, grad, noise) == Ok(grad)
  {
  }

  /** The default arguments make the node the identity. */
  lemma DefaultArgsAreIdentity(variant: Variant, x: Tensor, draws: seq<real>)
    ensures !Active(DefaultDropoutArgs())
    ensures ForwardSpec(DefaultDropoutArgs(), variant, x, draws) == Ok(Forwarded(x, None))
  {
  }

  /** The mask forward saves is the mask backward applies: every position the
      forward output zeroes, the returned gradient zeroes too. */
  lemma MaskAgreement(args: DropoutArgs, variant: Variant, x: Tensor, draws: seq<real>, g: Tensor)
    requires Active(args) && MaskFits(args, variant, x.shape, draws)
    requires ForwardSpec(args, variant, x, draws).Ok?
    requires |g.elems| == |x.elems|
    ensures var f := ForwardSpec(args, variant, x, draws).value;
      var b := BackwardSpec(args, Some(g), f.saved.value);
      && b.Ok? && b.value.Some?
      && forall i :: 0 <= i < |x.elems| ==>
           && f.output.elems[i] == x.elems[i] * f.saved.value.elems[i]
           && b.value.value.elems[i] == g.elems[i] * f.saved.value.elems[i]
           && (f.saved.value.elems[i] == 0.0 ==> f.output.elems[i] == 0.0 && b.value.value.elems[i] == 0.0)
  {
  }

  /** With a Bernoulli mask scaled by `1 / (1 - p)`, each output element is
      either dropped or the input element scaled by `1 / (1 - p)`; for
      `p = 0.5` that is 0 or twice the input. */
  lemma OutputIsDroppedOrScaled(args: DropoutArgs, variant: Variant, x: Tensor, draws: seq<real>)
    requires Active(args) && args.p < 1.0 && MaskFits(args, variant, x.shape, draws)
    requires forall j :: 0 <= j < |draws| ==> draws[j] == 0.0 || draws[j] == 1.0 / (1.0 - args.p)
    requires ForwardSpec(args, variant, x, draws).Ok?
    ensures var out := ForwardSpec(args, variant, x, draws).value.output;
      forall i :: 0 <= i < |out.elems| ==>
        && (out.elems[i] == 0.0 || out.elems[i] == x.elems[i] / (1.0 - args.p))
        && (args.p == 0.5 ==> out.elems[i] == 0.0 || out.elems[i] == 2.0 * x.elems[i])
  {
    NoiseShapeCovers(variant, x.shape);
    var plane := PlaneSize(variant, x.shape);
    var f := ForwardSpec(args, variant, x, draws).value;
    forall i | 0 <= i < |f.output.elems|
      ensures f.output.elems[i] == 0.0 || f.output.elems[i] == x.elems[i] / (1.0 - args.p)
      ensures args.p == 0.5 ==> f.output.elems[i] == 0.0 || f.output.elems[i] == 2.0 * x.elems[i]
    {
      var j := PlaneIndex(i, plane, |draws|);
      assert f.saved.value.elems[i] == draws[j];
      assert f.output.elems[i] == x.elems[i] * draws[j];
      if draws[j] != 0.0 {
        assert x.elems[i] * (1.0 / (1.0 - args.p)) == x.elems[i] / (1.0 - args.p);
        if args.p == 0.5 {
          assert 1.0 / (1.0 - args.p) == 2.0;
        }
      }
    }
  }

  /** `Dropout2d` drops whole planes: input elements that share their first
      two indices are multiplied by the same noise value. */
  lemma PlanesDropTogether(args: DropoutArgs, x: Tensor, draws: seq<real>)
    requires Active(args) && MaskFits(args, Dropout2d, x.shape, draws)
    requires ForwardSpec(args, Dropout2d, x, draws).Ok?
    ensures var n := ForwardSpec(args, Dropout2d, x, draws).value.saved.value;
      var plane := PlaneSize(Dropout2d, x.shape);
      forall i, j :: 0 <= i < |n.elems| && 0 <= j < |n.elems| && plane > 0 && i / plane == j / plane ==>
        n.elems[i] == n.elems[j]
  {
    NoiseShapeCovers(Dropout2d, x.shape);
  }

  /** One dropout function node: its configuration, the tensors it saved in
      forward for backward, and whether it has marked its input dirty. */
  class DropoutNode {
    const variant: Variant
    const args: DropoutArgs
    var savedTensors: seq<Tensor>
    var dirtyMarked: bool

    constructor (variant: Variant, args: DropoutArgs)
      ensures this.variant == variant && this.args == args
      ensures savedTensors == [] && !dirtyMarked
    {
      this.variant := variant;
      this.args := args;
      savedTensors := [];
      dirtyMarked := false;
    }

    /** `Noise::make_noise`: the shape of the noise tensor; for `Dropout2d`
        the first two sizes followed by a 1 per remaining dimension. */
    method MakeNoise(x: Tensor) returns (r: Result<seq<nat>>)
      ensures r == NoiseShape(variant, x.shape)
      ensures r.Ok? ==> |r.value| == |x.shape|
    {
      match variant
      case Dropout1d =>
        r := Ok(x.shape);
      case Dropout2d =>
        if |x.shape| < 2 {
          r := Err(IndexOutOfBounds);
          return;
        }
        var v := [x.shape[0], x.shape[1]];
        for k := 0 to |x.shape| - 2
          invariant |v| == k + 2 && v[0] == x.shape[0] && v[1] == x.shape[1]
          invariant forall j :: 2 <= j < |v| ==> v[j] == 1
        {
          v := v + [1];
        }
        assert v == [x.shape[0], x.shape[1]] + Ones(|x.shape| - 2);
        r := Ok(v);
    }

    /** `dropout_forward`: with `inplace` marks the input dirty and works on
        `input[0]` itself, otherwise on a copy; when active multiplies by the
        expanded noise and returns `[noise, output]`, else `[output]`. */
    method DropoutForward(input: array<Tensor>, args: DropoutArgs, draws: seq<real>) returns (r: Result<seq<Tensor>>)
      requires input.Length > 0 ==> MaskFits(args, variant, input[0].shape, draws)
      modifies this`dirtyMarked, input
      ensures dirtyMarked == (old(dirtyMarked) || args.inplace)
      ensures input.Length == 0 ==> r == Err(IndexOutOfBounds)
      ensures input.Length > 0 ==>
                var spec := ForwardSpec(args, variant, old(input[0]), draws);
                && (spec.Err? ==> r == Err(spec.error))
                && (spec.Ok? && spec.value.saved.Some? ==> r == Ok([spec.value.saved.value, spec.value.output]))
                && (spec.Ok? && spec.value.saved.None? ==> r == Ok([spec.value.output]))
                && (spec.Ok? && args.inplace ==> input[0] == spec.value.output)
      ensures input.Length > 0 && !args.inplace ==> input[0] == old(input[0])
      ensures forall j :: 1 <= j < input.Length ==> input[j] == old(input[j])
    {
      if args.inplace {
        dirtyMarked := true;
      }
      if input.Length == 0 {
        return Err(IndexOutOfBounds);
      }
      var output := input[0];
      if Active(args) {
        var shape := MakeNoise(input[0]);
        if shape.Err? {
          return Err(shape.error);
        }
        NoiseShapeCovers(variant, input[0].shape);
        var noise := Expand(draws, PlaneSize(variant, input[0].shape), input[0].kind, input[0].shape);
        output := Mult(output, noise);
        if args.inplace {
          input[0] := output;
        }
        r := Ok([noise, output]);
      } else {
        r := Ok([output]);
      }
    }

    /** `dropout_backward`: an absent gradient gives `[None]`; when active the
        incoming gradient is multiplied by the noise in place. */
    method DropoutBackward(gradOutput: array<Option<Tensor>>, args: DropoutArgs, noise: Tensor)
      returns (r: Result<seq<Option<Tensor>>>)
      modifies gradOutput
      ensures gradOutput.Length == 0 ==> r == Err(IndexOutOfBounds)
      ensures gradOutput.Length > 0 ==>
                var spec := BackwardSpec(args, old(gradOutput[0]), noise);
                && (spec.Err? ==> r == Err(spec.error))
                && (spec.Ok? ==> r == Ok([spec.value]))
                && gradOutput[0] == (if spec.Ok? && Active(args) then spec.value else old(gradOutput[0]))
      ensures forall j :: 1 <= j < gradOutput.Length ==> gradOutput[j] == old(gradOutput[j])
    {
      if gradOutput.Length == 0 {
        return Err(IndexOutOfBounds);
      }
      match gradOutput[0]
      case None =>
        r := Ok([None]);
      case Some(g) =>
        if Active(args) {
          if |g.elems| != |noise.elems| {
            return Err(ShapeMismatch);
          }
          var product := Mult(g, noise);
          gradOutput[0] := Some(product);
          r := Ok([Some(product)]);
        } else {
          r := Ok([Some(g)]);
        }
    }

    /** `FuncIntf::forward`: when active the noise is moved from the front of
        the result onto `saved_tensors`. */
    method Forward(input: array<Tensor>, draws: seq<real>) returns (r: Result<seq<Tensor>>)
      requires input.Length > 0 ==> MaskFits(args, variant, input[0].shape, draws)
      modifies this`dirtyMarked, this`savedTensors, input
      ensures dirtyMarked == (old(dirtyMarked) || args.inplace)
      ensures input.Length == 0 ==> r == Err(IndexOutOfBounds) && savedTensors == old(savedTensors)
      ensures input.Length > 0 ==>
                var spec := ForwardSpec(args, variant, old(input[0]), draws);
                && (spec.Err? ==> r == Err(spec.error) && savedTensors == old(savedTensors))
                && (spec.Ok? ==> r == Ok([spec.value.output]))
                && (spec.Ok? && spec.value.saved.Some? ==> savedTensors == old(savedTensors) + [spec.value.saved.value])
                && (spec.Ok? && spec.value.saved.None? ==> savedTensors == old(savedTensors))
                && (spec.Ok? && args.inplace ==> input[0] == spec.value.output)
      ensures input.Length > 0 && !args.inplace ==> input[0] == old(input[0])
      ensures forall j :: 1 <= j < input.Length ==> input[j] == old(input[j])
    {
      var result := DropoutForward(input, args, draws);
      if result.Ok? && Active(args) {
        savedTensors := savedTensors + [result.value[0]];
        result := Ok(result.value[1..]);
      }
      r := result;
    }

    /** `FuncIntf::backward`: removes `saved_tensors[0]` first, whatever the
        gradient, and hands it to `dropout_backward`. */
    method Backward(gradOutput: array<Option<Tensor>>) returns (r: Result<seq<Option<Tensor>>>)
      modifies this`savedTensors, gradOutput
      ensures old(savedTensors) == [] ==>
                r == Err(IndexOutOfBounds) && savedTensors == [] && gradOutput[..] == old(gradOutput[..])
      ensures old(savedTensors) != [] ==> savedTensors == old(savedTensors)[1..]
      ensures old(savedTensors) != [] && gradOutput.Length == 0 ==> r == Err(IndexOutOfBounds)
      ensures old(savedTensors) != [] && gradOutput.Length > 0 ==>
                var spec := BackwardSpec(args, old(gradOutput[0]), old(savedTensors)[0]);
                && (spec.Err? ==> r == Err(spec.error))
                && (spec.Ok? ==> r == Ok([spec.value]))
                && gradOutput[0] == (if spec.Ok? && Active(args) then spec.value else old(gradOutput[0]))
      ensures forall j :: 1 <= j < gradOutput.Length ==> gradOutput[j] == old(gradOutput[j])
    {
      if |savedTensors| == 0 {
        return Err(IndexOutOfBounds);
      }
      var noise := savedTensors[0];
      savedTensors := savedTensors[1..];
      r := DropoutBackward(gradOutput, args, noise);
    }
  }

  /** An inactive node saves nothing, so backward after its forward has no
      saved tensor to remove and fails. */
  method InactiveForwardThenBackward(variant: Variant, args: DropoutArgs, x: Tensor, g: Tensor)
    returns (fwd: Result<seq<Tensor>>, bwd: Result<seq<Option<Tensor>>>)
    requires !Active(args)
    ensures fwd == Ok([x])
    ensures bwd == Err(IndexOutOfBounds)
  {
    var node := new DropoutNode(variant, args);
    var input := new Tensor[1](_ => x);
    fwd := node.Forward(input, []);
    var grads := new Option<Tensor>[1](_ => Some(g));
    bwd := node.Backward(grads);
  }

  /** A training node saves its noise in forward and consumes that same noise
      in backward, leaving nothing saved. */
  method TrainingForwardThenBackward(variant: Variant, p: real, x: Tensor, draws: seq<real>, g: Tensor)
    returns (fwd: Result<seq<Tensor>>, bwd: Result<seq<Option<Tensor>>>)
    requires p > 0.0 && MaskFits(DropoutArgs(p, true, false), variant, x.shape, draws)
    requires NoiseShape(variant, x.shape).Ok? && |g.elems| == |x.elems|
    ensures var n := NoiseTensor(DropoutArgs(p, true, false), variant, x, draws);
      && n.Ok?
      && fwd == Ok([Mult(x, n.value)])
      && bwd == Ok([Some(Mult(g, n.value))])
  {
    var args := DropoutArgs(p, true, false);
    var node := new DropoutNode(variant, args);
    var input := new Tensor[1](_ => x);
    fwd := node.Forward(input, draws);
    assert |node.savedTensors| == 1;
    var grads := new Option<Tensor>[1](_ => Some(g));
    bwd := node.Backward(grads);
    assert node.savedTensors == [];
  }
}
