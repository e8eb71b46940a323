# Quantized layers: weight swapping, clamping and shift-norm statistics

This project models in Dafny the stateful logic of the quantization-aware layers in
`QuantTorch/layers/dorefa_layers.py`, `layers/binary_layers.py` and
`layers/lossQuant_layers.py`. It covers three pieces:

- **DoReFa train/eval weight swap** (`DorefaLayers`). Each layer holds a `training` flag, a master
  `weight` and an optional snapshot `weight.org`. `train(False)` saves the weight into the snapshot,
  creating the snapshot on first use, and overwrites the weight with its quantized value.
  `train(True)` copies the snapshot back. `train(mode)` in the current mode does nothing.
  `forward` quantizes the weight in training and uses the stored weight in evaluation.
  `convert` builds the constructor arguments of a quantized layer from a host `Linear` or `Conv2d`,
  or raises `TypeError`.
  The protocol is stated once on values, in `TrainStep` over `WeightState`. The classes
  `LinearDorefa` and `DorefaConv2d` hold arrays and prove their in-place `Train` against it.
- **Clamping and parameter reset** (`BinaryLayers`, `LossQuantLayers`, with the in-place
  `clamp_`, `zero_` and `copy_` in `Tensors`). `clamp` bounds the weight, and in most layers the
  bias, to `[-1, 1]`, `[bottom, top]` or `±init·gamma^(size-1)`. `BinarizeConv2d` leaves its bias
  alone. `reset_parameters` zeroes the bias. `set_alpha` replaces the scale.
- **Shift-norm running statistics** (`BinaryLayers`). The running mean is an exponential moving
  average of the batch mean. The running variance averages `dev·AP2(dev)`, where `dev` is measured
  against the mean just updated. `_tile` is modelled, and so is the broadcasting it leads to in the
  2d layer.

Some things are foreign calls or randomness. These are the quantizer `nnQuantWeight`, `AP2`, the
operators `BinaryDense`, `BinaryConv2d`, `ShiftBatch` and `loss_quant_connect.*`, the host's
`linear`/`conv2d`, and random samples. They enter as parameters: function values, or `draw`
sequences.

## Partial updates and other behaviour of the source

- `train(True)` sets the flag before it reads `weight.org`. A layer in evaluation mode without a
  snapshot therefore raises `AttributeError` with `training` already `True` (`TrainStep` returns
  `RaisedAttributeError` with `training = true`). The invariant `Consistent`, kept by
  `RunNeverRaises`, shows that such a layer cannot be reached through `train` alone.
- `ShiftNormBatch2d.forward` writes `running_mean` before the subtraction that can raise. When the
  tiled mean, of shape `[C][W][H]`, does not broadcast against `x`, of shape `[N][C][H][W]`, the
  call raises with `running_mean` updated and `running_var` not. The broadcast succeeds exactly
  when `H == W`, `H == 1` or `W == 1`, so the layer needs square planes, or planes one element
  high or wide.
- `convert` copies the shape and hyper-parameters only. The new layer gets fresh weights, and the
  conv variant does not keep `bit_width` as an attribute.
- `LinearBin` draws its weight from a normal distribution, so its initial weight is not bounded by
  the clamp interval.
- `LinearQuantLin` keeps no `size` attribute: `size` only configures its operator.

## Model

| member | source | states |
|---|---|---|
| `DorefaLayers.TrainStep` | QuantTorch/layers/dorefa_layers.py:29-39 | after `train(mode)` the flag equals `mode`, even when the call raises; the weight keeps its size or becomes the snapshot |
| `DorefaLayers.ForwardWeight` | QuantTorch/layers/dorefa_layers.py:41-45 | the weight `forward` hands to `linear` has the master weight's size |
| `DorefaLayers.TrainSameModeIsNoOp` | QuantTorch/layers/dorefa_layers.py:30-31 | `train(mode)` in the current mode leaves flag, weight and snapshot unchanged |
| `DorefaLayers.TrainToEval` | QuantTorch/layers/dorefa_layers.py:35-39 | training to eval gives `training = false`, `org = old weight`, `weight = q(old weight)` |
| `DorefaLayers.EvalToTrainRestoresSnapshot` | QuantTorch/layers/dorefa_layers.py:33-34 | eval to training copies the snapshot into the weight, whatever the weight held |
| `DorefaLayers.EvalThenTrainRoundTrip` | QuantTorch/layers/dorefa_layers.py:33-39 | `train(False)` then `train(True)` restores the weight exactly |
| `DorefaLayers.EvalTwiceIsEvalOnce` | QuantTorch/layers/dorefa_layers.py:30-39 | `train(False)` twice gives the same state as once |
| `DorefaLayers.EvalForwardMatchesTraining` | QuantTorch/layers/dorefa_layers.py:39-45 | right after going to eval, the eval-mode weight equals the training-mode weight, `q(snapshot)` |
| `DorefaLayers.TrainKeepsConsistent` | QuantTorch/layers/dorefa_layers.py:29-39 | from a consistent state `train` never raises and keeps "eval implies snapshot, of the weight's size" |
| `DorefaLayers.RunNeverRaises` | QuantTorch/layers/dorefa_layers.py:29-39 | any sequence of `train` calls and shape-keeping weight writes from a consistent state (the constructor's) never raises; every state reached is consistent |
| `DorefaLayers.RunStaysReconciled` | QuantTorch/layers/dorefa_layers.py:29-45 | if the weight is written only in training mode, then in eval mode it always equals the quantized snapshot |
| `DorefaLayers.ConvertLinear` | QuantTorch/layers/dorefa_layers.py:12-16 | `TypeError(class)` exactly when the source is not a `Linear`; otherwise same features and bias presence, with the given `bit_width` |
| `DorefaLayers.ConvertConv2d` | QuantTorch/layers/dorefa_layers.py:50-56 | `TypeError(class)` exactly when the source is not a `Conv2d`; otherwise same channels, kernel size, stride, padding, dilation, groups and bias presence |
| `DorefaLayers.ConvertLinearIsStable` | QuantTorch/layers/dorefa_layers.py:11-16 | a `LinearDorefa`, seen as the `torch.nn.Linear` it is, converts again, into the arguments its attributes record with the new `bit_width` |
| `DorefaLayers.ConvertConv2dIsStable` | QuantTorch/layers/dorefa_layers.py:48-56 | a `DorefaConv2d`, seen as the `torch.nn.Conv2d` it is, converts into its own geometry with the `bit_width` passed to `convert` |
| `DorefaLayers.LinearDorefa.constructor` | QuantTorch/layers/dorefa_layers.py:18-24 | the layer starts in training mode without a snapshot, records exactly its constructor arguments (`Args()`), and uses the quantizer built for that `bit_width` |
| `DorefaLayers.LinearDorefa.Train` | QuantTorch/layers/dorefa_layers.py:29-39 | the in-place `train` ends in the state `TrainStep` gives, never raises, and keeps the invariant; the snapshot array is created once and then reused |
| `DorefaLayers.LinearDorefa.Forward` | QuantTorch/layers/dorefa_layers.py:41-45 | `linear` gets the input, the mode's weight and the bias |
| `DorefaLayers.DorefaConv2d.constructor` | QuantTorch/layers/dorefa_layers.py:59-63 | the layer starts in training mode without a snapshot, keeps its geometry, and uses the quantizer for `bit_width` |
| `DorefaLayers.DorefaConv2d.Train` | QuantTorch/layers/dorefa_layers.py:65-75 | as `LinearDorefa.Train` |
| `DorefaLayers.DorefaConv2d.Forward` | QuantTorch/layers/dorefa_layers.py:77-82 | `conv2d` gets the mode's weight, the bias, stride, padding, dilation and groups |
| `Tensors.Clamp` | layers/lossQuant_layers.py:32-35 | the clamped value lies in `[lo, hi]` when `lo <= hi`, is unchanged when already inside, is `hi` when `lo > hi`, and is the input or a bound |
| `Tensors.ClampAll` | layers/binary_layers.py:27-30 | `clamp_` keeps the size, bounds every entry, and leaves in-range entries unchanged |
| `Tensors.ClampAllIdempotent` | layers/lossQuant_layers.py:32-35 | clamping twice equals clamping once, for any bounds |
| `Tensors.ClampAllKeepsInRange` | layers/lossQuant_layers.py:33 | a tensor already in range is left unchanged |
| `Tensors.ClampInPlace` | layers/binary_layers.py:28 | the in-place loop leaves the array equal to `ClampAll` of its old contents |
| `Tensors.ZeroInPlace` | layers/binary_layers.py:25 | every element becomes 0 |
| `Tensors.CopyInto` | QuantTorch/layers/dorefa_layers.py:38 | `copy_` makes the destination equal the source |
| `BinaryLayers.LinearBin.constructor` | layers/binary_layers.py:11-20 | keeps the sizes and bias presence; the weight is the normal draw and the bias is zero |
| `BinaryLayers.LinearBin.ResetParameters` | layers/binary_layers.py:22-25 | the weight takes the draw and the bias becomes zero; with `in_features = 0` the call raises and changes nothing |
| `BinaryLayers.LinearBin.Clamp` | layers/binary_layers.py:27-30 | weight and, if present, bias become their clamp to `[-1, 1]` |
| `BinaryLayers.LinearBin.Forward` | layers/binary_layers.py:32-35 | `BinaryDense` gets the input, the weight and the bias when present |
| `BinaryLayers.BinarizeConv2d.constructor` | layers/binary_layers.py:40-43 | the weight and bias are those the base convolution built; `conv_op` is configured with the layer's stride, padding, dilation and groups |
| `BinaryLayers.BinarizeConv2d.Clamp` | layers/binary_layers.py:44-47 | the weight becomes its clamp to `[-1, 1]`; the bias is unchanged |
| `BinaryLayers.BinarizeConv2d.Forward` | layers/binary_layers.py:50-52 | the operator the layer built gets the input, the weight and the bias |
| `BinaryLayers.BinaryClampProperties` | layers/binary_layers.py:27-30 | the `[-1, 1]` clamp bounds every entry, keeps in-range entries, and is idempotent |
| `BinaryLayers.Update1d` | layers/binary_layers.py:70-72 | one `forward` keeps one running mean and one running variance per channel; `Update1dAt` gives each entry |
| `BinaryLayers.Update1dAt` | layers/binary_layers.py:70-72 | per channel, the mean becomes `(1-m)·mean + m·batch mean`; the variance becomes `(1-m)·var + m·mean(dev·AP2(dev))`, with `dev` against the updated mean |
| `BinaryLayers.ShiftDeviationWithIdentity` | layers/binary_layers.py:72 | when AP2 is the identity, the variance term is the mean squared deviation from the updated mean |
| `BinaryLayers.ShiftDeviationIsNotSquaredDeviation` | layers/binary_layers.py:72 | with AP2 rounding 3 to 4, one sample at distance 3 from the mean gives the variance term 12, where the squared deviation is 9 |
| `BinaryLayers.Iterate1dMeanAt` | layers/binary_layers.py:70-71 | `n` calls on one batch average each channel's running mean `n` times towards the batch mean |
| `BinaryLayers.RepeatedEmaClosedForm` | layers/binary_layers.py:71 | `n` averaging steps towards `b` give `b + (1-m)^n·(mean0 - b)` |
| `BinaryLayers.EmaOfClosedForm` | layers/binary_layers.py:71 | one more averaging step multiplies the distance to `b` by `1-m` |
| `BinaryLayers.RunningMeanClosedForm` | layers/binary_layers.py:70-71 | after `n` calls on a constant batch, `running_mean[c] = b + (1-m)^n·(mean0 - b)` |
| `BinaryLayers.RunningMeanFromInitial` | layers/binary_layers.py:63-71 | from the constructor's zero mean, `running_mean[c] = b + (1-m)^n·(0 - b)` |
| `BinaryLayers.Update1dKeepsVarianceNonNegative` | layers/binary_layers.py:72 | with a sign-preserving AP2 and `0 <= m <= 1`, a non-negative running variance stays non-negative |
| `BinaryLayers.ShiftNormBatch1d.constructor` | layers/binary_layers.py:57-67 | the buffers start as zeros and ones; `eps` and `momentum` are kept |
| `BinaryLayers.ShiftNormBatch1d.Forward` | layers/binary_layers.py:70-72 | every call, whatever the mode, updates the buffers as `Update1d`: mean first, then variance against the new mean |
| `BinaryLayers.Tile` | layers/binary_layers.py:93-95 | `_tile(t, (h, w))` has shape `[C][w][h]`, and every entry of channel `c` is `t[c]` |
| `BinaryLayers.ChannelMeans2d` | layers/binary_layers.py:100 | `mean(x, [0, 2, 3])` has one entry per channel |
| `BinaryLayers.BroadcastRule` | layers/binary_layers.py:101-103 | `x - curr_mean` broadcasts exactly when `H == W`, `H == 1` or `W == 1`, and its planes are then square |
| `BinaryLayers.ShiftDeviation2d` | layers/binary_layers.py:101-103 | the 2d variance term has one entry per channel; `ShiftProducts2dAreChannelDeviations` gives each |
| `BinaryLayers.ShiftProducts2dAreChannelDeviations` | layers/binary_layers.py:101-103 | `(x - _tile(mean)) * AP2(x - _tile(mean))` over channel `c` equals `dev * AP2(dev)` with `dev` the broadcast values of channel `c` minus `mean[c]`; so the variance term of channel `c` is their mean |
| `BinaryLayers.ShiftDeviation2dOfSquare` | layers/binary_layers.py:101-103 | on square planes the variance term of channel `c` is the mean of `dev * AP2(dev)` over that channel's values, as in the 1d layer |
| `BinaryLayers.ShiftNormBatch2d.constructor` | layers/binary_layers.py:81-91 | the buffers start as zeros and ones; `eps` and `momentum` are kept |
| `BinaryLayers.ShiftNormBatch2d.Forward` | layers/binary_layers.py:97-103 | the mean is averaged with `mean(x, [0,2,3])`; without a broadcast (`H != W`, neither 1) it raises with the variance unchanged; otherwise the variance is averaged with the mean of `dev·AP2(dev)` against the tiled new mean |
| `LossQuantLayers.LogBound` | layers/lossQuant_layers.py:63-68 | `init * gamma ** (size - 1)`: for a negative exponent, the bound times `gamma^(1-size)` is `init`; the bound is non-negative when `init` and `gamma` are |
| `LossQuantLayers.LinearQuantLin.constructor` | layers/lossQuant_layers.py:12-25 | keeps sizes and range, configures `linear_op` as `QuantLinDense(size, bottom, top)`, sets `alpha = [alpha]`; the weight is the uniform draw and the bias is zero |
| `LossQuantLayers.LinearQuantLin.ResetParameters` | layers/lossQuant_layers.py:27-30 | the weight takes the draw in `[bottom, top]` and the bias becomes zero |
| `LossQuantLayers.LinearQuantLin.Clamp` | layers/lossQuant_layers.py:32-35 | weight and, if present, bias become their clamp to `[bottom, top]` |
| `LossQuantLayers.LinearQuantLin.SetAlpha` | layers/lossQuant_layers.py:37-38 | `alpha` becomes `[a]`; weight and bias are unchanged |
| `LossQuantLayers.LinearQuantLin.Forward` | layers/lossQuant_layers.py:41-42 | the operator the layer built gets input, weight, bias and alpha; nothing of the layer is modified |
| `LossQuantLayers.LinearQuantLog.constructor` | layers/lossQuant_layers.py:46-60 | keeps sizes, `gamma`, `init`, `size` and `alpha = [alpha]`, configures `linear_op` as `QuantLogDense(gamma, init, size)`; the weight is the draw in `±init·gamma^(size-1)` and the bias is zero |
| `LossQuantLayers.LinearQuantLog.ResetParameters` | layers/lossQuant_layers.py:62-65 | the weight takes the draw in `±init·gamma^(size-1)` and the bias becomes zero |
| `LossQuantLayers.LinearQuantLog.Clamp` | layers/lossQuant_layers.py:67-70 | weight and, if present, bias become their clamp to `±init·gamma^(size-1)` |
| `LossQuantLayers.LinearQuantLog.SetAlpha` | layers/lossQuant_layers.py:72-73 | `alpha` becomes `[a]`; weight and bias are unchanged |
| `LossQuantLayers.LinearQuantLog.Forward` | layers/lossQuant_layers.py:76-77 | the operator the layer built gets input, weight, bias and alpha; nothing of the layer is modified |
| `LossQuantLayers.QuandConv2d.constructor` | layers/lossQuant_layers.py:81-87 | keeps range, `size` and `alpha = [alpha]`, configures `conv_op` as `QuantConv2d(size, bottom, top, stride, padding, dilation, groups)`; the weight and bias are those the base convolution built |
| `LossQuantLayers.QuandConv2d.ResetParameters` | layers/lossQuant_layers.py:90-93 | the weight takes the draw in `[bottom, top]` and the bias becomes zero |
| `LossQuantLayers.QuandConv2d.Clamp` | layers/lossQuant_layers.py:95-98 | weight and, if present, bias become their clamp to `[bottom, top]` |
| `LossQuantLayers.QuandConv2d.SetAlpha` | layers/lossQuant_layers.py:100-101 | `alpha` becomes `[a]`; weight and bias are unchanged |
| `LossQuantLayers.QuandConv2d.Forward` | layers/lossQuant_layers.py:103-104 | the operator the layer built gets input, weight, bias and alpha; nothing of the layer is modified |
| `LossQuantLayers.LogClampAfterResetIsNoOp` | layers/lossQuant_layers.py:62-70 | the log layer clamps to the interval it draws from, so a clamp right after a reset changes neither weight nor bias |
| `LossQuantLayers.UniformClampAfterReset` | layers/lossQuant_layers.py:27-35 | a clamp right after a reset keeps the weight; it keeps the zero bias exactly when `0` is in `[bottom, top]` (or there is no bias entry) |
| `LossQuantLayers.LogClampBounds` | layers/lossQuant_layers.py:67-70 | with a non-negative bound, the log clamp bounds every entry and is idempotent |
| `LossQuantLayers.DefaultLogBound` | layers/lossQuant_layers.py:46 | a `LinearQuantLog` with the defaults `gamma = 2`, `init = 0.25`, `size = 5` has the bound 4, so it draws and clamps in `[-4, 4]` |

## Left out

- The quantizer bodies and custom backward passes (`dorefa_connect.nnQuantWeight`,
  `binary_connect.BinaryDense`/`BinaryConv2d`/`AP2`/`ShiftBatch`, `loss_quant_connect.*`) are not
  part of this model. They are function parameters. A quantizer is assumed only to keep the weight's
  size (`WeightOp`). AP2 is assumed sign-preserving in one lemma only.
- The linear and convolution arithmetic, autograd, `.detach()` and `.to(device)` belong to the host
  tensor engine. `Forward` methods pass their arguments to a function parameter standing for the
  host call.
- Random initialisation (`normal_`, `uniform_`, and the host layers' own initialisers) is a `draw`
  parameter. A `uniform_` draw is assumed to lie in its closed interval.
- Floating point is not modelled. The running statistics use exact `real` arithmetic, and NaN is not
  modelled. Empty batches and zero-sized planes, whose means are NaN, are excluded by `Batch1d` and
  `Batch2d`.
- The normalised output of `ShiftBatch.apply` is a foreign call. So are the tiled `running_var`,
  `weight` and `bias` that go into it. The affine `weight` and `bias` of the shift-norm layers are
  uninitialised tensors and are not fields of the model.
- Tensor shapes: weights are flat arrays. The conv weight's shape is not tied to its geometry. Inputs
  must match the layer's channel count. Host shape errors are not modelled, except the 2d broadcast,
  which is.
- `LossQuantLayers.LinearQuantLin.ResetParameters`: requires `bottom <= top`, and the constructors
  and the other `ResetParameters` require the same of their interval. Otherwise the host's `uniform_`
  rejects its arguments, and that check is the engine's.
- `LossQuantLayers.LinearQuantLog.constructor`: requires `size >= 1 or gamma != 0`. Otherwise
  `gamma ** (size - 1)` divides by zero in the source.
- `BinaryLayers.LinearBin.constructor`: requires `in_features > 0`. With zero input features,
  `reset_parameters` divides by zero inside the constructor. `LinearBin.ResetParameters` models that
  failure when called again later.
- `LossQuantLayers.QuandConv2d.constructor`: the wiring through `torch.nn.Conv2d.__init__` is not
  modelled. That includes the base constructor calling the overridden `reset_parameters` before
  `bottom`/`top` are set. The constructor takes the weight and bias the base layer leaves.
- `DorefaLayers.LinearDorefa.Train`: requires the class invariant `Valid()`. The class invariant
  assumes `training` is changed only through `train`. A direct write to the public attribute could
  put a layer in eval mode without a snapshot. The value-level `TrainStep` still models the
  `AttributeError` that would follow.
- `DorefaLayers.DorefaConv2d.Train`: the same assumption.
- Default arguments are not modelled; every constructor and `train` takes all its arguments. The
  source's defaults are `bit_width=3` (both DoReFa layers and `convert`), `train(mode=True)`,
  `bias=True`, `bottom=-1, top=1, size=5, alpha=1` (`LinearQuantLin`, `QuandConv2d`),
  `gamma=2, init=0.25, size=5, alpha=1` (`LinearQuantLog`), `stride=1, padding=1, dilation=1,
  groups=1` (`QuandConv2d`), and `eps=1e-5, momentum=0.1` (both shift-norm layers).
- `LossQuantLayers.LogBound`: requires `size >= 1 or gamma != 0`; with `gamma = 0` and `size < 1`
  the source raises `ZeroDivisionError`, which the model does not represent.
- `extra_repr` (string formatting) and `models/binMNIST_conv.py` (model assembly) have no logic of
  their own to model.
