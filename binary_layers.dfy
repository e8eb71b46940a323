/**
  Binary-connect layers and the shift-based batch normalisation.

  `LinearBin` and `BinarizeConv2d` keep real-valued weights that are clamped to `[-1, 1]`
  after each optimizer step. `ShiftNormBatch1d` and `ShiftNormBatch2d` keep per-channel
  running statistics: an exponential moving average of the batch mean, and of a variance
  in which the squared deviation `dev * dev` is replaced by `dev * AP2(dev)`.

  `AP2` (power-of-two rounding) and the operators `BinaryDense`, `BinaryConv2d` and
  `ShiftBatch` are not part of this model: AP2 and the operators the layers call are parameters.
*/
module BinaryLayers {
  import opened Outcomes
  import opened Tensors
  import opened HostLayers

  // ---------------------------------------------------------------------------
  // Binary-connect layers
  // ---------------------------------------------------------------------------

  /** `LinearBin`: a dense layer whose weight is binarized by `BinaryDense`. */
  class LinearBin {
    const inFeatures: nat
    const outFeatures: nat
    /** The real-valued weight, `out_features * in_features` elements in row-major order. */
    const weight: array<real>
    const bias: array?<real>

    ghost predicate Valid()
      reads this
    {
      weight.Length == outFeatures * inFeatures
      && (bias != null ==> bias.Length == outFeatures && bias != weight)
    }

    function BiasValue(): Option<seq<real>>
      reads this, bias
    {
      if bias == null then None else Some(bias[..])
    }

    /** `LinearBin(in_features, out_features, bias)`, which ends with `reset_parameters()`.
        `draw` stands for the normal sample that call takes. */
    constructor (inFeatures: nat, outFeatures: nat, hasBias: bool, draw: seq<real>)
      requires inFeatures > 0
      requires |draw| == outFeatures * inFeatures
      ensures Valid() && fresh(weight) && (bias != null ==> fresh(bias))
      ensures this.inFeatures == inFeatures && this.outFeatures == outFeatures
      ensures (bias != null) == hasBias
      ensures weight[..] == draw
      ensures BiasValue() == if hasBias then Some(Zeros(outFeatures)) else None
    {
      this.inFeatures := inFeatures;
      this.outFeatures := outFeatures;
      weight := new real[outFeatures * inFeatures];
      if hasBias {
        bias := new real[outFeatures];
      } else {
        bias := null;
      }
      new;
      var ok := ResetParameters(draw);
    }

    /** `reset_parameters()`: the weight takes the normal sample `draw` (standard deviation
        `sqrt(1 / in_features)`) and the bias, if any, becomes zero. With no input features
        the standard deviation divides by zero: the call raises and changes nothing. */
    method ResetParameters(draw: seq<real>) returns (ok: bool)
      requires Valid()
      requires |draw| == weight.Length
      modifies weight, bias
      ensures ok == (inFeatures > 0)
      ensures ok ==> weight[..] == draw
      ensures ok && bias != null ==> bias[..] == Zeros(bias.Length)
      ensures !ok ==> weight[..] == old(weight[..]) && (bias != null ==> bias[..] == old(bias[..]))
    {
      if inFeatures == 0 {
        return false;
      }
      CopyInto(weight, draw);
      if bias != null {
        ZeroInPlace(bias);
      }
      ok := true;
    }

    /** `clamp()`: the weight and, if present, the bias are clamped to `[-1, 1]` in place. */
    method Clamp()
      requires Valid()
      modifies weight, bias
      ensures weight[..] == ClampAll(old(weight[..]), -1.0, 1.0)
      ensures bias != null ==> bias[..] == ClampAll(old(bias[..]), -1.0, 1.0)
    {
      ClampInPlace(weight, -1.0, 1.0);
      if bias != null {
        ClampInPlace(bias, -1.0, 1.0);
      }
    }

    /** `forward(input)`: `BinaryDense.apply(input, weight[, bias])`, the bias left out when absent. */
    method Forward<I, O>(input: I, binaryDense: (I, seq<real>, Option<seq<real>>) -> O) returns (out: O)
      requires Valid()
      ensures out == binaryDense(input, weight[..], BiasValue())
    {
      out := binaryDense(input, weight[..], BiasValue());
    }
  }

  /** The operator `BinaryConv2d(stride, padding, dilation, groups)` a `BinarizeConv2d` builds
      from its own geometry. What it computes is not part of this model. */
  datatype BinaryConv2d = BinaryConv2d(stride: (nat, nat), padding: (nat, nat), dilation: (nat, nat), groups: nat)

  /** `BinarizeConv2d`: a `torch.nn.Conv2d` whose weight is binarized by `BinaryConv2d`. */
  class BinarizeConv2d {
    const geometry: ConvGeometry
    /** `conv_op`. */
    const convOp: BinaryConv2d
    /** The real-valued weight, flattened. */
    const weight: array<real>
    const bias: array?<real>

    ghost predicate Valid()
      reads this
    {
      bias != weight && (bias != null) == geometry.hasBias
    }

    function BiasValue(): Option<seq<real>>
      reads this, bias
    {
      if bias == null then None else Some(bias[..])
    }

    /** `BinarizeConv2d(*kargs, **kwargs)`: the layer `torch.nn.Conv2d` builds for `geometry`,
        whose initial weight and bias are parameters, and the operator configured from it. */
    constructor (geometry: ConvGeometry, initialWeight: seq<real>, initialBias: Option<seq<real>>)
      requires initialBias.Some? == geometry.hasBias
      ensures Valid() && fresh(weight) && (bias != null ==> fresh(bias))
      ensures this.geometry == geometry
      ensures convOp == BinaryConv2d(geometry.stride, geometry.padding, geometry.dilation, geometry.groups)
      ensures weight[..] == initialWeight && BiasValue() == initialBias
    {
      this.geometry := geometry;
      convOp := BinaryConv2d(geometry.stride, geometry.padding, geometry.dilation, geometry.groups);
      var w := new real[|initialWeight|];
      CopyInto(w, initialWeight);
      weight := w;
      if initialBias.Some? {
        var b := new real[|initialBias.value|];
        CopyInto(b, initialBias.value);
        bias := b;
      } else {
        bias := null;
      }
    }

    /** `clamp()`: only the weight is clamped to `[-1, 1]`; the bias is left as it is. */
    method Clamp()
      requires Valid()
      modifies weight
      ensures weight[..] == ClampAll(old(weight[..]), -1.0, 1.0)
      ensures bias != null ==> bias[..] == old(bias[..])
    {
      ClampInPlace(weight, -1.0, 1.0);
    }

    /** `forward(input)`: `conv_op.apply(input, weight, bias)`, with the operator the layer built;
        `apply` stands for what that operator computes. */
    method Forward<I, O>(input: I, apply: (BinaryConv2d, I, seq<real>, Option<seq<real>>) -> O) returns (out: O)
      requires Valid()
      ensures out == apply(convOp, input, weight[..], BiasValue())
    {
      out := apply(convOp, input, weight[..], BiasValue());
    }
  }

  /** The clamp of the binary layers leaves every entry in `[-1, 1]`, keeps the entries
      already there, and a second clamp changes nothing. */
  lemma BinaryClampProperties(s: seq<real>)
    ensures InRange(ClampAll(s, -1.0, 1.0), -1.0, 1.0)
    ensures forall i :: 0 <= i < |s| && -1.0 <= s[i] <= 1.0 ==> ClampAll(s, -1.0, 1.0)[i] == s[i]
    ensures ClampAll(ClampAll(s, -1.0, 1.0), -1.0, 1.0) == ClampAll(s, -1.0, 1.0)
  {
    ClampAllIdempotent(s, -1.0, 1.0);
  }

  // ---------------------------------------------------------------------------
  // Running statistics of the shift-based batch normalisation
  // ---------------------------------------------------------------------------

  /** The per-channel `running_mean` and `running_var` buffers. */
  datatype RunningStats = RunningStats(mean: seq<real>, variance: seq<real>)

  /** The buffers as the constructors create them: zero means, unit variances. */
  function InitialStats(channels: nat): RunningStats
  {
    RunningStats(Zeros(channels), Ones(channels))
  }

  /** One exponential-moving-average step with momentum `m`. */
  function Blend(running: real, observed: real, m: real): real
  {
    (1.0 - m) * running + m * observed
  }

  /** `(1 - m) * running + m * batch`, channel by channel. */
  function Ema(running: seq<real>, batch: seq<real>, m: real): (r: seq<real>)
    requires |running| == |batch|
    ensures |r| == |running| && forall c :: 0 <= c < |r| ==> r[c] == Blend(running[c], batch[c], m)
  {
    seq(|running|, c requires 0 <= c < |running| => Blend(running[c], batch[c], m))
  }

  /** The term that stands for a squared deviation in the variance estimate. */
  function ShiftProduct(dev: real, ap2: real -> real): real
  {
    dev * ap2(dev)
  }

  /** A non-empty batch of `N` rows of `channels` features. */
  predicate Batch1d(x: seq<seq<real>>, channels: nat)
  {
    |x| > 0 && forall n :: 0 <= n < |x| ==> |x[n]| == channels
  }

  /** The values of channel `c` across the batch, `x[:, c]`. */
  function Column(x: seq<seq<real>>, c: nat): (r: seq<real>)
    requires forall n :: 0 <= n < |x| ==> c < |x[n]|
    ensures |r| == |x| && forall n :: 0 <= n < |x| ==> r[n] == x[n][c]
  {
    seq(|x|, n requires 0 <= n < |x| => x[n][c])
  }

  /** `torch.mean(x, 0)`. */
  function ChannelMeans1d(x: seq<seq<real>>, channels: nat): (r: seq<real>)
    requires Batch1d(x, channels)
    ensures |r| == channels
  {
    seq(channels, c requires 0 <= c < channels => Mean(Column(x, c)))
  }

  /** `(v - mu) * AP2(v - mu)` for every element `v` of `s`. */
  function ShiftProducts(s: seq<real>, mu: real, ap2: real -> real): (r: seq<real>)
    ensures |r| == |s| && forall k :: 0 <= k < |s| ==> r[k] == ShiftProduct(s[k] - mu, ap2)
  {
    seq(|s|, k requires 0 <= k < |s| => ShiftProduct(s[k] - mu, ap2))
  }

  /** The elements `(x - mu) * AP2(x - mu)` of channel `c` across the batch. */
  function ShiftProducts1d(x: seq<seq<real>>, mu: real, c: nat, ap2: real -> real): (r: seq<real>)
    requires forall n :: 0 <= n < |x| ==> c < |x[n]|
    ensures |r| == |x| && forall n :: 0 <= n < |x| ==> r[n] == ShiftProduct(x[n][c] - mu, ap2)
  {
    ShiftProducts(Column(x, c), mu, ap2)
  }

  /** `torch.mean((x - mean) * AP2(x - mean), 0)`. */
  function ShiftDeviation1d(x: seq<seq<real>>, mean: seq<real>, ap2: real -> real): (r: seq<real>)
    requires Batch1d(x, |mean|)
    ensures |r| == |mean|
  {
    seq(|mean|, c requires 0 <= c < |mean| => Mean(ShiftProducts1d(x, mean[c], c, ap2)))
  }

  /** One `ShiftNormBatch1d.forward(x)` on the buffers: the mean first, then the variance,
      measured against the mean just updated. */
  function Update1d(s: RunningStats, x: seq<seq<real>>, m: real, ap2: real -> real): (r: RunningStats)
    requires |s.mean| == |s.variance| && Batch1d(x, |s.mean|)
    ensures |r.mean| == |r.variance| == |s.mean|
  {
    var mean := Ema(s.mean, ChannelMeans1d(x, |s.mean|), m);
    RunningStats(mean, Ema(s.variance, ShiftDeviation1d(x, mean, ap2), m))
  }

  /** Channel by channel: the running mean moves towards the batch mean, and the running
      variance towards the mean of `dev * AP2(dev)`, where `dev` is taken against the
      updated running mean rather than the batch mean or the previous running mean. */
  lemma Update1dAt(s: RunningStats, x: seq<seq<real>>, m: real, ap2: real -> real, c: nat)
    requires |s.mean| == |s.variance| && Batch1d(x, |s.mean|) && c < |s.mean|
    ensures var r := Update1d(s, x, m, ap2);
      r.mean[c] == (1.0 - m) * s.mean[c] + m * Mean(Column(x, c))
      && r.variance[c] == (1.0 - m) * s.variance[c] + m * Mean(ShiftProducts1d(x, r.mean[c], c, ap2))
  {
  }

  /** When AP2 is taken to be the identity, the estimate is the ordinary mean squared deviation
      from the updated running mean. */
  lemma ShiftDeviationWithIdentity(x: seq<seq<real>>, mean: seq<real>, c: nat)
    requires Batch1d(x, |mean|) && c < |mean|
    ensures ShiftDeviation1d(x, mean, d => d)[c]
      == Mean(seq(|x|, n requires 0 <= n < |x| => (x[n][c] - mean[c]) * (x[n][c] - mean[c])))
  {
    var squares := seq(|x|, n requires 0 <= n < |x| => (x[n][c] - mean[c]) * (x[n][c] - mean[c]));
    var products := ShiftProducts1d(x, mean[c], c, d => d);
    forall n | 0 <= n < |x|
      ensures products[n] == squares[n]
    {
      assert products[n] == ShiftProduct(x[n][c] - mean[c], d => d);
    }
    assert products == squares;
  }

  /** With the real AP2, which rounds a deviation of 3 to the power of two 4, the estimate is not
      the squared deviation: one sample at distance 3 from the mean gives 12 instead of 9. */
  lemma ShiftDeviationIsNotSquaredDeviation(ap2: real -> real)
    requires ap2(3.0) == 4.0
    ensures ShiftDeviation1d([[3.0]], [0.0], ap2) == [12.0]
    ensures ShiftDeviation1d([[3.0]], [0.0], d => d) == [9.0]
  {
    var x := [[3.0]];
    assert Column(x, 0) == [3.0];
    assert ShiftProducts1d(x, 0.0, 0, ap2) == [12.0];
    assert ShiftProducts1d(x, 0.0, 0, d => d) == [9.0];
    assert Mean([12.0]) == 12.0;
    assert Mean([9.0]) == 9.0;
  }

  /** `n` calls of `forward` on the same batch. */
  function Iterate1d(s: RunningStats, x: seq<seq<real>>, m: real, ap2: real -> real, n: nat): (r: RunningStats)
    requires |s.mean| == |s.variance| && Batch1d(x, |s.mean|)
    ensures |r.mean| == |r.variance| == |s.mean|
    decreases n
  {
    if n == 0 then s else Update1d(Iterate1d(s, x, m, ap2, n - 1), x, m, ap2)
  }

  /** The running mean of one channel after `n` averaging steps towards the same value `b`. */
  function RepeatedEma(mean0: real, b: real, m: real, n: nat): real
    decreases n
  {
    if n == 0 then mean0 else Blend(RepeatedEma(mean0, b, m, n - 1), b, m)
  }

  /** `n` calls on one batch average channel `c` of the running mean `n` times towards the batch mean. */
  lemma {:induction false} Iterate1dMeanAt(s: RunningStats, x: seq<seq<real>>, m: real, ap2: real -> real, n: nat, c: nat)
    requires |s.mean| == |s.variance| && Batch1d(x, |s.mean|) && c < |s.mean|
    ensures Iterate1d(s, x, m, ap2, n).mean[c] == RepeatedEma(s.mean[c], Mean(Column(x, c)), m, n)
    decreases n
  {
    if n > 0 {
      var prev := Iterate1d(s, x, m, ap2, n - 1);
      Iterate1dMeanAt(s, x, m, ap2, n - 1, c);
      Update1dAt(prev, x, m, ap2, c);
      var b := Mean(Column(x, c));
      var r := Update1d(prev, x, m, ap2);
      assert r.mean[c] == Blend(prev.mean[c], b, m);
      assert prev.mean[c] == RepeatedEma(s.mean[c], b, m, n - 1);
      assert Iterate1d(s, x, m, ap2, n) == r;
    }
  }

  /** The averaging shrinks the distance to `b` geometrically: `b + (1 - m)^n * (mean0 - b)`. */
  lemma {:induction false} RepeatedEmaClosedForm(mean0: real, b: real, m: real, n: nat)
    ensures RepeatedEma(mean0, b, m, n) == b + Power(1.0 - m, n) * (mean0 - b)
    decreases n
  {
    if n > 0 {
      RepeatedEmaClosedForm(mean0, b, m, n - 1);
      EmaOfClosedForm(b, Power(1.0 - m, n - 1), mean0, m,
                      RepeatedEma(mean0, b, m, n - 1), RepeatedEma(mean0, b, m, n), Power(1.0 - m, n));
    }
  }

  /** One more average step on `b + p * (d0 - b)` multiplies the distance to `b` by `1 - m`. */
  lemma EmaOfClosedForm(b: real, p: real, d0: real, m: real, prev: real, next: real, pow: real)
    requires prev == b + p * (d0 - b)
    requires next == (1.0 - m) * prev + m * b
    requires pow == (1.0 - m) * p
    ensures next == b + pow * (d0 - b)
  {
  }

  /** After `n` calls on a constant batch whose channel mean is `b`, the running mean is
      `b + (1 - m)^n * (mean0 - b)`. */
  lemma RunningMeanClosedForm(s: RunningStats, x: seq<seq<real>>, m: real, ap2: real -> real, n: nat, c: nat)
    requires |s.mean| == |s.variance| && Batch1d(x, |s.mean|) && c < |s.mean|
    ensures var b := Mean(Column(x, c));
      Iterate1d(s, x, m, ap2, n).mean[c] == b + Power(1.0 - m, n) * (s.mean[c] - b)
  {
    Iterate1dMeanAt(s, x, m, ap2, n, c);
    RepeatedEmaClosedForm(s.mean[c], Mean(Column(x, c)), m, n);
  }

  /** From the constructor's buffers, `n` calls on a constant batch with channel mean `b`
      leave `running_mean[c] = b + (1 - m)^n * (0 - b)`. */
  lemma RunningMeanFromInitial(x: seq<seq<real>>, channels: nat, m: real, ap2: real -> real, n: nat, c: nat)
    requires Batch1d(x, channels) && c < channels
    ensures var b := Mean(Column(x, c));
      Iterate1d(InitialStats(channels), x, m, ap2, n).mean[c] == b + Power(1.0 - m, n) * (0.0 - b)
  {
    RunningMeanClosedForm(InitialStats(channels), x, m, ap2, n, c);
  }

  /** AP2 rounds a magnitude to a power of two and keeps the sign, so `dev * AP2(dev)` is never negative. */
  ghost predicate SignPreserving(ap2: real -> real)
  {
    forall d :: 0.0 <= d * ap2(d)
  }

  /** With a sign-preserving AP2 and a momentum in `[0, 1]`, the running variance stays non-negative. */
  lemma Update1dKeepsVarianceNonNegative(s: RunningStats, x: seq<seq<real>>, m: real, ap2: real -> real)
    requires |s.mean| == |s.variance| && Batch1d(x, |s.mean|)
    requires 0.0 <= m <= 1.0 && SignPreserving(ap2)
    requires forall c :: 0 <= c < |s.variance| ==> 0.0 <= s.variance[c]
    ensures forall c :: 0 <= c < |s.variance| ==> 0.0 <= Update1d(s, x, m, ap2).variance[c]
  {
    var r := Update1d(s, x, m, ap2);
    forall c | 0 <= c < |s.variance|
      ensures 0.0 <= r.variance[c]
    {
      var products := ShiftProducts1d(x, r.mean[c], c, ap2);
      forall n | 0 <= n < |products|
        ensures 0.0 <= products[n]
      {
        var dev := x[n][c] - r.mean[c];
        assert 0.0 <= dev * ap2(dev);
      }
      MeanNonNegative(products);
      Update1dAt(s, x, m, ap2, c);
      var spread := Mean(products);
      ProductNonNegative(1.0 - m, s.variance[c]);
      ProductNonNegative(m, spread);
    }
  }

  lemma ProductNonNegative(a: real, b: real)
    requires 0.0 <= a && 0.0 <= b
    ensures 0.0 <= a * b
  {
  }

  /** `ShiftNormBatch1d`: the running statistics of a batch normalisation over `[N, C]` inputs. */
  class ShiftNormBatch1d {
    const inFeatures: nat
    const eps: real
    const momentum: real
    var runningMean: seq<real>
    var runningVar: seq<real>

    ghost predicate Valid()
      reads this
    {
      |runningMean| == inFeatures && |runningVar| == inFeatures
    }

    function Stats(): RunningStats
      reads this
    {
      RunningStats(runningMean, runningVar)
    }

    /** `ShiftNormBatch1d(in_dim, eps, momentum)`. */
    constructor (inDim: nat, eps: real, momentum: real)
      ensures Valid() && inFeatures == inDim && this.eps == eps && this.momentum == momentum
      ensures Stats() == InitialStats(inDim)
    {
      inFeatures, this.eps, this.momentum := inDim, eps, momentum;
      runningMean, runningVar := Zeros(inDim), Ones(inDim);
    }

    /** `forward(x)`, running-statistics part: updated on every call, whatever the mode. */
    method Forward(x: seq<seq<real>>, ap2: real -> real)
      requires Valid() && Batch1d(x, inFeatures)
      modifies this
      ensures Valid()
      ensures Stats() == Update1d(old(Stats()), x, momentum, ap2)
    {
      runningMean := Ema(runningMean, ChannelMeans1d(x, inFeatures), momentum);
      runningVar := Ema(runningVar, ShiftDeviation1d(x, runningMean, ap2), momentum);
    }
  }

  // ---------------------------------------------------------------------------
  // The two-dimensional variant
  // ---------------------------------------------------------------------------

  /** `ShiftNormBatch2d._tile(t, (h, w))`: `t.repeat(h, w, 1).transpose(2, 0)`,
      a tensor of shape `[C][w][h]` whose entries at channel `c` all equal `t[c]`. */
  function Tile(t: seq<real>, h: nat, w: nat): (r: seq<seq<seq<real>>>)
    ensures |r| == |t|
    ensures forall c :: 0 <= c < |t| ==>
      |r[c]| == w && forall j :: 0 <= j < w ==> |r[c][j]| == h && forall i :: 0 <= i < h ==> r[c][j][i] == t[c]
  {
    var repeated := seq(h, i => seq(w, j => t));
    seq(|t|, c requires 0 <= c < |t| =>
      seq(w, j requires 0 <= j < w =>
        seq(h, i requires 0 <= i < h => repeated[i][j][c])))
  }

  /** A non-empty batch of shape `[N][C][h][w]`. */
  predicate Batch2d(x: seq<seq<seq<seq<real>>>>, channels: nat, h: nat, w: nat)
  {
    |x| > 0 && h > 0 && w > 0
    && forall n :: 0 <= n < |x| ==>
         |x[n]| == channels
         && forall c :: 0 <= c < channels ==>
              |x[n][c]| == h && forall i :: 0 <= i < h ==> |x[n][c][i]| == w
  }

  /** The values of channel `c` over batch and space, in the order `[N][h][w]`. */
  function Plane(x: seq<seq<seq<seq<real>>>>, channels: nat, h: nat, w: nat, c: nat): (r: seq<real>)
    requires Batch2d(x, channels, h, w) && c < channels
    ensures |r| > 0
  {
    Flatten(seq(|x|, n requires 0 <= n < |x| => Flatten(x[n][c])))
  }

  /** `torch.mean(x, [0, 2, 3])`. */
  function ChannelMeans2d(x: seq<seq<seq<seq<real>>>>, channels: nat, h: nat, w: nat): (r: seq<real>)
    requires Batch2d(x, channels, h, w)
    ensures |r| == channels
  {
    seq(channels, c requires 0 <= c < channels => Mean(Plane(x, channels, h, w, c)))
  }

  /** Two sizes of one dimension broadcast when they are equal or one of them is 1. */
  predicate DimsBroadcast(a: nat, b: nat)
  {
    a == b || a == 1 || b == 1
  }

  /** The size of a broadcast dimension: a size 1 takes the other side's size. */
  function BroadcastDim(a: nat, b: nat): nat
    requires DimsBroadcast(a, b)
  {
    if a == 1 then b else a
  }

  /** `x - tile` broadcasts the `[h][w]` planes of `x` against the `[w][h]` planes of the tile,
      dimension by dimension. */
  predicate Broadcastable(h: nat, w: nat)
  {
    DimsBroadcast(h, w) && DimsBroadcast(w, h)
  }

  /** The side of the planes of `x - tile`. */
  function BroadcastSide(h: nat, w: nat): nat
    requires Broadcastable(h, w)
  {
    BroadcastDim(h, w)
  }

  /** The subtraction in `forward` goes through exactly for square planes and for planes one
      element high or wide, and its planes are then square. */
  lemma BroadcastRule(h: nat, w: nat)
    ensures Broadcastable(h, w) <==> (h == w || h == 1 || w == 1)
    ensures Broadcastable(h, w) ==> BroadcastDim(h, w) == BroadcastDim(w, h) == BroadcastSide(h, w)
  {
  }

  /** A plane of `x`, of shape `[h][w]`, as the broadcast spreads it over `[side][side]`. */
  function BroadcastPlane(p: seq<seq<real>>, h: nat, w: nat): (r: seq<seq<real>>)
    requires Broadcastable(h, w) && |p| == h && forall i :: 0 <= i < h ==> |p[i]| == w
    ensures |r| == BroadcastSide(h, w)
    ensures forall i :: 0 <= i < |r| ==> |r[i]| == BroadcastSide(h, w)
  {
    var side := BroadcastSide(h, w);
    seq(side, i requires 0 <= i < side =>
      seq(side, j requires 0 <= j < side => p[if h == 1 then 0 else i][if w == 1 then 0 else j]))
  }

  /** The values of channel `c` of `x` after broadcasting, in the order `[N][side][side]`. */
  function BroadcastValues(x: seq<seq<seq<seq<real>>>>, channels: nat, h: nat, w: nat, c: nat): seq<real>
    requires Batch2d(x, channels, h, w) && Broadcastable(h, w) && c < channels
  {
    Flatten(seq(|x|, n requires 0 <= n < |x| => Flatten(BroadcastPlane(x[n][c], h, w))))
  }

  /** Row `i` of the elements `dev * AP2(dev)` of sample `n` and channel `c`, `dev = x - tile`
      after broadcasting. */
  function RowShiftProducts2d(x: seq<seq<seq<seq<real>>>>, tile: seq<seq<seq<real>>>, channels: nat,
                              h: nat, w: nat, ap2: real -> real, c: nat, n: nat, i: nat): (r: seq<real>)
    requires Batch2d(x, channels, h, w) && Broadcastable(h, w) && c < channels && n < |x|
    requires |tile| == channels && |tile[c]| == w && forall j :: 0 <= j < w ==> |tile[c][j]| == h
    requires i < BroadcastSide(h, w)
    ensures |r| == BroadcastSide(h, w)
  {
    var side := BroadcastSide(h, w);
    seq(side, j requires 0 <= j < side =>
      ShiftProduct(x[n][c][if h == 1 then 0 else i][if w == 1 then 0 else j]
                   - tile[c][if w == 1 then 0 else i][if h == 1 then 0 else j], ap2))
  }

  /** The elements `dev * AP2(dev)` of sample `n` and channel `c`, `dev = x - tile` after
      broadcasting, in the order `[side][side]`. */
  function SampleShiftProducts2d(x: seq<seq<seq<seq<real>>>>, tile: seq<seq<seq<real>>>, channels: nat,
                                 h: nat, w: nat, ap2: real -> real, c: nat, n: nat): (r: seq<real>)
    requires Batch2d(x, channels, h, w) && Broadcastable(h, w) && c < channels && n < |x|
    requires |tile| == channels && |tile[c]| == w && forall j :: 0 <= j < w ==> |tile[c][j]| == h
    ensures |r| > 0
  {
    var side := BroadcastSide(h, w);
    Flatten(seq(side, i requires 0 <= i < side => RowShiftProducts2d(x, tile, channels, h, w, ap2, c, n, i)))
  }

  /** The elements `dev * AP2(dev)` of channel `c`, `dev = x - tile` after broadcasting,
      in the order `[N][side][side]`. */
  function ShiftProducts2d(x: seq<seq<seq<seq<real>>>>, tile: seq<seq<seq<real>>>, channels: nat, h: nat, w: nat,
                           ap2: real -> real, c: nat): (r: seq<real>)
    requires Batch2d(x, channels, h, w) && Broadcastable(h, w) && c < channels
    requires |tile| == channels && |tile[c]| == w && forall j :: 0 <= j < w ==> |tile[c][j]| == h
    ensures |r| > 0
  {
    Flatten(seq(|x|, n requires 0 <= n < |x| => SampleShiftProducts2d(x, tile, channels, h, w, ap2, c, n)))
  }

  /** `torch.mean((x - curr_mean) * AP2(x - curr_mean), [0, 2, 3])` with `curr_mean = _tile(mean, (h, w))`. */
  function ShiftDeviation2d(x: seq<seq<seq<seq<real>>>>, mean: seq<real>, h: nat, w: nat, ap2: real -> real): (r: seq<real>)
    requires Batch2d(x, |mean|, h, w) && Broadcastable(h, w)
    ensures |r| == |mean|
  {
    var tile := Tile(mean, h, w);
    seq(|mean|, c requires 0 <= c < |mean| => Mean(ShiftProducts2d(x, tile, |mean|, h, w, ap2, c)))
  }

  /** `ShiftProducts` distributes over concatenation. */
  lemma ShiftProductsOfConcat(a: seq<real>, b: seq<real>, mu: real, ap2: real -> real)
    ensures ShiftProducts(a + b, mu, ap2) == ShiftProducts(a, mu, ap2) + ShiftProducts(b, mu, ap2)
  {
  }

  /** `ShiftProducts` of a flattened tensor is the flattening of its rows' `ShiftProducts`. */
  lemma {:induction false} ShiftProductsOfFlatten(rows: seq<seq<real>>, mu: real, ap2: real -> real)
    ensures ShiftProducts(Flatten(rows), mu, ap2)
      == Flatten(seq(|rows|, r requires 0 <= r < |rows| => ShiftProducts(rows[r], mu, ap2)))
  {
    if rows != [] {
      var mapped := seq(|rows|, r requires 0 <= r < |rows| => ShiftProducts(rows[r], mu, ap2));
      ShiftProductsOfFlatten(rows[1..], mu, ap2);
      assert mapped[1..] == seq(|rows[1..]|, r requires 0 <= r < |rows[1..]| => ShiftProducts(rows[1..][r], mu, ap2));
      ShiftProductsOfConcat(rows[0], Flatten(rows[1..]), mu, ap2);
    }
  }

  /** For one row of one sample: subtracting the tiled mean is subtracting the channel's mean
      from the broadcast plane. */
  lemma RowShiftProductsAreChannelDeviations(x: seq<seq<seq<seq<real>>>>, mean: seq<real>, h: nat, w: nat,
                                             ap2: real -> real, c: nat, n: nat, i: nat)
    requires Batch2d(x, |mean|, h, w) && Broadcastable(h, w) && c < |mean| && n < |x| && i < BroadcastSide(h, w)
    ensures RowShiftProducts2d(x, Tile(mean, h, w), |mean|, h, w, ap2, c, n, i)
      == ShiftProducts(BroadcastPlane(x[n][c], h, w)[i], mean[c], ap2)
  {
    var tile := Tile(mean, h, w);
    var row := RowShiftProducts2d(x, tile, |mean|, h, w, ap2, c, n, i);
    var plane := BroadcastPlane(x[n][c], h, w);
    forall j | 0 <= j < BroadcastSide(h, w)
      ensures row[j] == ShiftProduct(plane[i][j] - mean[c], ap2)
    {
      assert tile[c][if w == 1 then 0 else i][if h == 1 then 0 else j] == mean[c];
    }
  }

  /** For one sample: subtracting the tiled mean is subtracting the channel's mean from the
      broadcast plane. */
  lemma SampleShiftProductsAreChannelDeviations(x: seq<seq<seq<seq<real>>>>, mean: seq<real>, h: nat, w: nat,
                                                ap2: real -> real, c: nat, n: nat)
    requires Batch2d(x, |mean|, h, w) && Broadcastable(h, w) && c < |mean| && n < |x|
    ensures SampleShiftProducts2d(x, Tile(mean, h, w), |mean|, h, w, ap2, c, n)
      == ShiftProducts(Flatten(BroadcastPlane(x[n][c], h, w)), mean[c], ap2)
  {
    var tile := Tile(mean, h, w);
    var side := BroadcastSide(h, w);
    var plane := BroadcastPlane(x[n][c], h, w);
    var rows := seq(side, i requires 0 <= i < side => RowShiftProducts2d(x, tile, |mean|, h, w, ap2, c, n, i));
    var mapped := seq(|plane|, r requires 0 <= r < |plane| => ShiftProducts(plane[r], mean[c], ap2));
    forall i | 0 <= i < side
      ensures rows[i] == mapped[i]
    {
      RowShiftProductsAreChannelDeviations(x, mean, h, w, ap2, c, n, i);
    }
    assert rows == mapped;
    ShiftProductsOfFlatten(plane, mean[c], ap2);
  }

  /** Every deviation the 2d variance sees is an element of `x` minus the updated running mean of
      its channel: tiling the mean and broadcasting it against `x` pairs each element with its
      own channel's mean, wherever the broadcast places it. */
  lemma ShiftProducts2dAreChannelDeviations(x: seq<seq<seq<seq<real>>>>, mean: seq<real>, h: nat, w: nat,
                                            ap2: real -> real, c: nat)
    requires Batch2d(x, |mean|, h, w) && Broadcastable(h, w) && c < |mean|
    ensures ShiftProducts2d(x, Tile(mean, h, w), |mean|, h, w, ap2, c)
      == ShiftProducts(BroadcastValues(x, |mean|, h, w, c), mean[c], ap2)
    ensures ShiftDeviation2d(x, mean, h, w, ap2)[c]
      == Mean(ShiftProducts(BroadcastValues(x, |mean|, h, w, c), mean[c], ap2))
  {
    var tile := Tile(mean, h, w);
    var samples := seq(|x|, n requires 0 <= n < |x| => SampleShiftProducts2d(x, tile, |mean|, h, w, ap2, c, n));
    var planes := seq(|x|, n requires 0 <= n < |x| => Flatten(BroadcastPlane(x[n][c], h, w)));
    var mapped := seq(|planes|, r requires 0 <= r < |planes| => ShiftProducts(planes[r], mean[c], ap2));
    forall n | 0 <= n < |x|
      ensures samples[n] == mapped[n]
    {
      SampleShiftProductsAreChannelDeviations(x, mean, h, w, ap2, c, n);
    }
    assert samples == mapped;
    ShiftProductsOfFlatten(planes, mean[c], ap2);
  }

  /** On square planes the broadcast leaves every plane as it is, so the 2d variance term of a
      channel is the mean of `dev * AP2(dev)` over that channel's values, as in the 1d layer. */
  lemma ShiftDeviation2dOfSquare(x: seq<seq<seq<seq<real>>>>, mean: seq<real>, h: nat, ap2: real -> real, c: nat)
    requires Batch2d(x, |mean|, h, h) && c < |mean|
    ensures ShiftDeviation2d(x, mean, h, h, ap2)[c] == Mean(ShiftProducts(Plane(x, |mean|, h, h, c), mean[c], ap2))
  {
    forall n | 0 <= n < |x|
      ensures BroadcastPlane(x[n][c], h, h) == x[n][c]
    {
      var p := BroadcastPlane(x[n][c], h, h);
      forall i | 0 <= i < h
        ensures p[i] == x[n][c][i]
      {
      }
    }
    assert seq(|x|, n requires 0 <= n < |x| => Flatten(BroadcastPlane(x[n][c], h, h)))
      == seq(|x|, n requires 0 <= n < |x| => Flatten(x[n][c]));
    ShiftProducts2dAreChannelDeviations(x, mean, h, h, ap2, c);
  }

  /** `ShiftNormBatch2d`: the running statistics of a batch normalisation over `[N, C, H, W]` inputs. */
  class ShiftNormBatch2d {
    const inFeatures: nat
    const eps: real
    const momentum: real
    var runningMean: seq<real>
    var runningVar: seq<real>

    ghost predicate Valid()
      reads this
    {
      |runningMean| == inFeatures && |runningVar| == inFeatures
    }

    function Stats(): RunningStats
      reads this
    {
      RunningStats(runningMean, runningVar)
    }

    /** `ShiftNormBatch2d(in_channels, eps, momentum)`. */
    constructor (inChannels: nat, eps: real, momentum: real)
      ensures Valid() && inFeatures == inChannels && this.eps == eps && this.momentum == momentum
      ensures Stats() == InitialStats(inChannels)
    {
      inFeatures, this.eps, this.momentum := inChannels, eps, momentum;
      runningMean, runningVar := Zeros(inChannels), Ones(inChannels);
    }

    /** `forward(x)` on an input of spatial size `(h, w)`, running-statistics part. The mean is
        updated first; when the tiled mean, of shape `[C][w][h]`, does not broadcast against `x`,
        the subtraction raises (`ok` is false) and the variance is left as it was. */
    method Forward(x: seq<seq<seq<seq<real>>>>, h: nat, w: nat, ap2: real -> real) returns (ok: bool)
      requires Valid() && Batch2d(x, inFeatures, h, w)
      modifies this
      ensures Valid()
      ensures ok == Broadcastable(h, w)
      ensures runningMean == Ema(old(runningMean), ChannelMeans2d(x, inFeatures, h, w), momentum)
      ensures ok ==> runningVar == Ema(old(runningVar), ShiftDeviation2d(x, runningMean, h, w, ap2), momentum)
      ensures !ok ==> runningVar == old(runningVar)
    {
      runningMean := Ema(runningMean, ChannelMeans2d(x, inFeatures, h, w), momentum);
      var currMean := Tile(runningMean, h, w);
      if !Broadcastable(h, w) {
        return false;
      }
      var deviation := seq(inFeatures, c requires 0 <= c < inFeatures =>
        Mean(ShiftProducts2d(x, currMean, inFeatures, h, w, ap2, c)));
      runningVar := Ema(runningVar, deviation, momentum);
      ok := true;
    }
  }
}
