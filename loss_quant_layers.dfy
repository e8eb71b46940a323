/**
  Loss-aware quantized layers: a linear layer with uniformly spaced levels in
  `[bottom, top]`, a linear layer with logarithmically spaced levels bounded by
  `init * gamma^(size - 1)`, and a convolution with uniform levels.

  Each keeps a real-valued weight, an optional bias and a one-element scale `alpha`,
  and hands all four to the operator from `loss_quant_connect` it configured at
  construction. The operator's configuration is recorded; what it computes is not part
  of this model and is a parameter of `Forward`.
*/
module LossQuantLayers {
  import opened Outcomes
  import opened Tensors

  /** `init * gamma ** (size - 1)`, the magnitude bound of the logarithmic scheme. For `size < 1`
      the exponent is negative and the power is a quotient, which needs a non-zero `gamma`
      (otherwise the source raises `ZeroDivisionError`). */
  function LogBound(init: real, gamma: real, size: int): (r: real)
    requires size >= 1 || gamma != 0.0
    ensures size < 1 ==> r * Power(gamma, 1 - size) == init
    ensures 0.0 <= init && 0.0 <= gamma ==> 0.0 <= r
  {
    if size >= 1 then
      PowerNonNegativeWhen(gamma, size - 1);
      init * Power(gamma, size - 1)
    else
      PowerNonZero(gamma, 1 - size);
      PowerNonNegativeWhen(gamma, 1 - size);
      init / Power(gamma, 1 - size)
  }

  /** `PowerNonNegative` for the cases where the base is non-negative. */
  lemma PowerNonNegativeWhen(gamma: real, e: nat)
    ensures 0.0 <= gamma ==> 0.0 <= Power(gamma, e)
  {
    if 0.0 <= gamma {
      PowerNonNegative(gamma, e);
    }
  }

  /** The operator `QuantLinDense(size, bottom, top)` a `LinearQuantLin` builds; what it
      computes is not part of this model. */
  datatype QuantLinDense = QuantLinDense(size: int, bottom: real, top: real)

  /** The operator `QuantLogDense(gamma, init, size)` a `LinearQuantLog` builds. */
  datatype QuantLogDense = QuantLogDense(gamma: real, init: real, size: int)

  /** The operator `QuantConv2d(size, bottom, top, stride, padding, dilation, groups)` a
      `QuandConv2d` builds. */
  datatype QuantConv2d = QuantConv2d(size: int, bottom: real, top: real,
                                     stride: nat, padding: nat, dilation: nat, groups: nat)

  /** `LinearQuantLin`: a dense layer quantized to uniformly spaced levels in `[bottom, top]`. */
  class LinearQuantLin {
    const inFeatures: nat
    const outFeatures: nat
    const bottom: real
    const top: real
    /** `linear_op`. */
    const linearOp: QuantLinDense
    /** The one-element scale buffer. */
    var alpha: seq<real>
    /** The weight, `out_features * in_features` elements in row-major order. */
    const weight: array<real>
    const bias: array?<real>

    ghost predicate Valid()
      reads this
    {
      weight.Length == outFeatures * inFeatures
      && (bias != null ==> bias.Length == outFeatures && bias != weight)
    }

    function BiasValue(): Option<seq<real>>
      reads this, bias
    {
      if bias == null then None else Some(bias[..])
    }

    /** `LinearQuantLin(in_features, out_features, bias, bottom, top, size, alpha)`, which calls
        `reset_parameters()`; `draw` stands for the uniform sample in `[bottom, top]` it takes. */
    constructor (inFeatures: nat, outFeatures: nat, hasBias: bool, bottom: real, top: real, size: int,
                 alpha: real, draw: seq<real>)
      requires bottom <= top
      requires |draw| == outFeatures * inFeatures && InRange(draw, bottom, top)
      ensures Valid() && fresh(weight) && (bias != null ==> fresh(bias))
      ensures this.inFeatures == inFeatures && this.outFeatures == outFeatures
      ensures this.bottom == bottom && this.top == top && linearOp == QuantLinDense(size, bottom, top)
      ensures this.alpha == [alpha] && (bias != null) == hasBias
      ensures weight[..] == draw
      ensures BiasValue() == if hasBias then Some(Zeros(outFeatures)) else None
    {
      this.inFeatures, this.outFeatures := inFeatures, outFeatures;
      this.bottom, this.top := bottom, top;
      linearOp := QuantLinDense(size, bottom, top);
      this.alpha := [alpha];
      weight := new real[outFeatures * inFeatures];
      if hasBias {
        bias := new real[outFeatures];
      } else {
        bias := null;
      }
      new;
      ResetParameters(draw);
    }

    /** `reset_parameters()`: the weight takes the uniform sample `draw` and the bias, if any, becomes zero. */
    method ResetParameters(draw: seq<real>)
      requires Valid() && bottom <= top
      requires |draw| == weight.Length && InRange(draw, bottom, top)
      modifies weight, bias
      ensures weight[..] == draw && InRange(weight[..], bottom, top)
      ensures bias != null ==> bias[..] == Zeros(bias.Length)
    {
      CopyInto(weight, draw);
      if bias != null {
        ZeroInPlace(bias);
      }
    }

    /** `clamp()`: the weight and, if present, the bias are clamped to `[bottom, top]` in place. */
    method Clamp()
      requires Valid()
      modifies weight, bias
      ensures weight[..] == ClampAll(old(weight[..]), bottom, top)
      ensures bias != null ==> bias[..] == ClampAll(old(bias[..]), bottom, top)
    {
      ClampInPlace(weight, bottom, top);
      if bias != null {
        ClampInPlace(bias, bottom, top);
      }
    }

    /** `set_alpha(alpha)`: the scale becomes the one-element tensor `[alpha]`. */
    method SetAlpha(alpha: real)
      modifies this`alpha
      ensures this.alpha == [alpha]
      ensures weight[..] == old(weight[..]) && BiasValue() == old(BiasValue())
    {
      this.alpha := [alpha];
    }

    /** `forward(input)`: `linear_op.apply(input, weight, bias, alpha)` with the operator the layer
        built, nothing of the layer changed; `apply` stands for what that operator computes. */
    method Forward<I, O>(input: I, apply: (QuantLinDense, I, seq<real>, Option<seq<real>>, seq<real>) -> O) returns (out: O)
      ensures out == apply(linearOp, input, weight[..], BiasValue(), alpha)
    {
      out := apply(linearOp, input, weight[..], BiasValue(), alpha);
    }
  }

  /** `LinearQuantLog`: a dense layer quantized to logarithmically spaced levels. */
  class LinearQuantLog {
    const inFeatures: nat
    const outFeatures: nat
    const gamma: real
    const init: real
    const size: int
    /** `linear_op`. */
    const linearOp: QuantLogDense
    var alpha: seq<real>
    /** The weight, `out_features * in_features` elements in row-major order. */
    const weight: array<real>
    const bias: array?<real>

    ghost predicate Valid()
      reads this
    {
      weight.Length == outFeatures * inFeatures
      && (bias != null ==> bias.Length == outFeatures && bias != weight)
      && (size >= 1 || gamma != 0.0)
    }

    /** The bound `init * gamma ** (size - 1)` shared by `reset_parameters` and `clamp`. */
    function Bound(): real
      reads this
      requires size >= 1 || gamma != 0.0
    {
      LogBound(init, gamma, size)
    }

    function BiasValue(): Option<seq<real>>
      reads this, bias
    {
      if bias == null then None else Some(bias[..])
    }

    /** `LinearQuantLog(in_features, out_features, bias, gamma, init, size, alpha)`, which calls
        `reset_parameters()`; `draw` stands for the uniform sample in `[-bound, bound]` it takes. */
    constructor (inFeatures: nat, outFeatures: nat, hasBias: bool, gamma: real, init: real, size: int,
                 alpha: real, draw: seq<real>)
      requires size >= 1 || gamma != 0.0
      requires 0.0 <= LogBound(init, gamma, size)
      requires |draw| == outFeatures * inFeatures
      requires InRange(draw, -LogBound(init, gamma, size), LogBound(init, gamma, size))
      ensures Valid() && fresh(weight) && (bias != null ==> fresh(bias))
      ensures this.inFeatures == inFeatures && this.outFeatures == outFeatures
      ensures this.gamma == gamma && this.init == init && this.size == size
      ensures linearOp == QuantLogDense(gamma, init, size)
      ensures this.alpha == [alpha] && (bias != null) == hasBias
      ensures weight[..] == draw
      ensures BiasValue() == if hasBias then Some(Zeros(outFeatures)) else None
    {
      this.inFeatures, this.outFeatures := inFeatures, outFeatures;
      this.gamma, this.init, this.size := gamma, init, size;
      linearOp := QuantLogDense(gamma, init, size);
      this.alpha := [alpha];
      weight := new real[outFeatures * inFeatures];
      if hasBias {
        bias := new real[outFeatures];
      } else {
        bias := null;
      }
      new;
      ResetParameters(draw);
    }

    /** `reset_parameters()`: the weight takes the uniform sample `draw` in `[-bound, bound]`
        and the bias, if any, becomes zero. */
    method ResetParameters(draw: seq<real>)
      requires Valid() && 0.0 <= Bound()
      requires |draw| == weight.Length && InRange(draw, -Bound(), Bound())
      modifies weight, bias
      ensures weight[..] == draw && InRange(weight[..], -Bound(), Bound())
      ensures bias != null ==> bias[..] == Zeros(bias.Length)
    {
      CopyInto(weight, draw);
      if bias != null {
        ZeroInPlace(bias);
      }
    }

    /** `clamp()`: the weight and, if present, the bias are clamped to `[-bound, bound]` in place. */
    method Clamp()
      requires Valid()
      modifies weight, bias
      ensures weight[..] == ClampAll(old(weight[..]), -Bound(), Bound())
      ensures bias != null ==> bias[..] == ClampAll(old(bias[..]), -Bound(), Bound())
    {
      var bound := LogBound(init, gamma, size);
      ClampInPlace(weight, -bound, bound);
      if bias != null {
        ClampInPlace(bias, -bound, bound);
      }
    }

    /** `set_alpha(alpha)`: the scale becomes the one-element tensor `[alpha]`. */
    method SetAlpha(alpha: real)
      modifies this`alpha
      ensures this.alpha == [alpha]
      ensures weight[..] == old(weight[..]) && BiasValue() == old(BiasValue())
    {
      this.alpha := [alpha];
    }

    /** `forward(input)`: `linear_op.apply(input, weight, bias, alpha)` with the operator the layer
        built, nothing of the layer changed; `apply` stands for what that operator computes. */
    method Forward<I, O>(input: I, apply: (QuantLogDense, I, seq<real>, Option<seq<real>>, seq<real>) -> O) returns (out: O)
      ensures out == apply(linearOp, input, weight[..], BiasValue(), alpha)
    {
      out := apply(linearOp, input, weight[..], BiasValue(), alpha);
    }
  }

  /** `QuandConv2d`: a convolution quantized to uniformly spaced levels in `[bottom, top]`. */
  class QuandConv2d {
    const bottom: real
    const top: real
    const size: int
    /** `conv_op`. */
    const convOp: QuantConv2d
    var alpha: seq<real>
    /** The weight, flattened. */
    const weight: array<real>
    const bias: array?<real>

    ghost predicate Valid()
      reads this
    {
      bias != weight
    }

    function BiasValue(): Option<seq<real>>
      reads this, bias
    {
      if bias == null then None else Some(bias[..])
    }

    /** `QuandConv2d(..., bottom, top, size, alpha, stride, padding, dilation, groups)`; the
        weight and bias the base `torch.nn.Conv2d` constructor leaves are parameters. */
    constructor (bottom: real, top: real, size: int, alpha: real,
                 stride: nat, padding: nat, dilation: nat, groups: nat,
                 initialWeight: seq<real>, initialBias: Option<seq<real>>)
      ensures Valid() && fresh(weight) && (bias != null ==> fresh(bias))
      ensures this.bottom == bottom && this.top == top && this.size == size && this.alpha == [alpha]
      ensures convOp == QuantConv2d(size, bottom, top, stride, padding, dilation, groups)
      ensures weight[..] == initialWeight && BiasValue() == initialBias
    {
      this.bottom, this.top, this.size := bottom, top, size;
      convOp := QuantConv2d(size, bottom, top, stride, padding, dilation, groups);
      this.alpha := [alpha];
      var w := new real[|initialWeight|];
      CopyInto(w, initialWeight);
      weight := w;
      if initialBias.Some? {
        var b := new real[|initialBias.value|];
        CopyInto(b, initialBias.value);
        bias := b;
      } else {
        bias := null;
      }
    }

    /** `reset_parameters()`: the weight takes the uniform sample `draw` and the bias, if any, becomes zero. */
    method ResetParameters(draw: seq<real>)
      requires Valid() && bottom <= top
      requires |draw| == weight.Length && InRange(draw, bottom, top)
      modifies weight, bias
      ensures weight[..] == draw && InRange(weight[..], bottom, top)
      ensures bias != null ==> bias[..] == Zeros(bias.Length)
    {
      CopyInto(weight, draw);
      if bias != null {
        ZeroInPlace(bias);
      }
    }

    /** `clamp()`: the weight and, if present, the bias are clamped to `[bottom, top]` in place. */
    method Clamp()
      requires Valid()
      modifies weight, bias
      ensures weight[..] == ClampAll(old(weight[..]), bottom, top)
      ensures bias != null ==> bias[..] == ClampAll(old(bias[..]), bottom, top)
    {
      ClampInPlace(weight, bottom, top);
      if bias != null {
        ClampInPlace(bias, bottom, top);
      }
    }

    /** `set_alpha(alpha)`: the scale becomes the one-element tensor `[alpha]`. */
    method SetAlpha(alpha: real)
      modifies this`alpha
      ensures this.alpha == [alpha]
      ensures weight[..] == old(weight[..]) && BiasValue() == old(BiasValue())
    {
      this.alpha := [alpha];
    }

    /** `forward(input)`: `conv_op.apply(input, weight, bias, alpha)` with the operator the layer
        built, nothing of the layer changed; `apply` stands for what that operator computes. */
    method Forward<I, O>(input: I, apply: (QuantConv2d, I, seq<real>, Option<seq<real>>, seq<real>) -> O) returns (out: O)
      ensures out == apply(convOp, input, weight[..], BiasValue(), alpha)
    {
      out := apply(convOp, input, weight[..], BiasValue(), alpha);
    }
  }

  /** The log layer clamps to the very interval its `reset_parameters` draws from, so a clamp
      right after a reset changes neither the weight nor the (zero) bias. */
  lemma LogClampAfterResetIsNoOp(draw: seq<real>, outFeatures: nat, init: real, gamma: real, size: int)
    requires size >= 1 || gamma != 0.0
    requires 0.0 <= LogBound(init, gamma, size)
    requires InRange(draw, -LogBound(init, gamma, size), LogBound(init, gamma, size))
    ensures var bound := LogBound(init, gamma, size);
      ClampAll(draw, -bound, bound) == draw && ClampAll(Zeros(outFeatures), -bound, bound) == Zeros(outFeatures)
  {
    var bound := LogBound(init, gamma, size);
    ClampAllKeepsInRange(draw, -bound, bound);
    ClampAllKeepsInRange(Zeros(outFeatures), -bound, bound);
  }

  /** For the uniform layers the same holds of the weight; the zeroed bias is kept only when
      zero lies in `[bottom, top]`, and is moved to the nearer bound otherwise. */
  lemma UniformClampAfterReset(draw: seq<real>, outFeatures: nat, bottom: real, top: real)
    requires bottom <= top && InRange(draw, bottom, top)
    ensures ClampAll(draw, bottom, top) == draw
    ensures ClampAll(Zeros(outFeatures), bottom, top) == Zeros(outFeatures) <==> (outFeatures == 0 || bottom <= 0.0 <= top)
  {
    ClampAllKeepsInRange(draw, bottom, top);
    if bottom <= 0.0 <= top {
      ClampAllKeepsInRange(Zeros(outFeatures), bottom, top);
    } else if outFeatures > 0 {
      assert ClampAll(Zeros(outFeatures), bottom, top)[0] != 0.0;
    }
  }

  /** The log scheme's interval: symmetric, and non-empty exactly when the bound is non-negative. */
  lemma LogClampBounds(s: seq<real>, init: real, gamma: real, size: int)
    requires size >= 1 || gamma != 0.0
    requires 0.0 <= LogBound(init, gamma, size)
    ensures var bound := LogBound(init, gamma, size);
      InRange(ClampAll(s, -bound, bound), -bound, bound)
      && ClampAll(ClampAll(s, -bound, bound), -bound, bound) == ClampAll(s, -bound, bound)
  {
    var bound := LogBound(init, gamma, size);
    ClampAllIdempotent(s, -bound, bound);
  }

  /** A log layer built with the default scheme (`gamma = 2`, `init = 0.25`, `size = 5`)
      draws and clamps its weights in `[-4, 4]`. */
  lemma DefaultLogBound(layer: LinearQuantLog)
    requires layer.gamma == 2.0 && layer.init == 0.25 && layer.size == 5
    ensures layer.Bound() == 4.0
  {
    assert Power(2.0, 4) == 16.0 by {
      assert Power(2.0, 2) == 4.0;
    }
  }
}
