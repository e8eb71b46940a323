/**
  DoReFa-quantized linear and convolutional layers.

  Each layer keeps a master weight and, once it has been put in evaluation mode,
  a snapshot `org` of that weight. Going to evaluation saves the master weight into
  the snapshot and overwrites the weight with its quantized value, so that inference
  reads it directly; going back to training copies the snapshot back.

  The quantizer `dorefa_connect.nnQuantWeight(bit_width)` is not part of this model:
  it is a parameter, of which only one thing is assumed, that it keeps the tensor's shape.
*/
module DorefaLayers {
  import opened Outcomes
  import opened HostLayers
  import Tensors

  /** A weight quantizer: any function on flat weight tensors that keeps their size. */
  type WeightOp = q: seq<real> -> seq<real> | forall w :: |q(w)| == |w|
    witness (w: seq<real>) => w

  /** The quantizer a layer builds for a given bit width (`nnQuantWeight(bit_width=...)`). */
  type QuantizerFamily = nat -> WeightOp

  // ---------------------------------------------------------------------------
  // The train/eval protocol on values
  // ---------------------------------------------------------------------------

  /** What `train` reads and writes: the mode flag, the weight's contents and the snapshot, if any. */
  datatype WeightState = WeightState(training: bool, weight: seq<real>, snapshot: Option<seq<real>>)

  /** How a call to `train` ends: normally, or with an `AttributeError` raised because
      there is no snapshot to restore. Both carry the state the layer is left in. */
  datatype TrainOutcome = Done(state: WeightState) | RaisedAttributeError(state: WeightState)

  /** A layer as its constructor leaves it: in training mode, with no snapshot. */
  function Initial(weight: seq<real>): WeightState
  {
    WeightState(true, weight, None)
  }

  /** `train(mode)`. The flag is assigned before the copy from the snapshot, so a missing
      snapshot leaves the layer in training mode with its weight unchanged. */
  function TrainStep(s: WeightState, mode: bool, q: WeightOp): (r: TrainOutcome)
    ensures r.state.training == mode
    ensures |r.state.weight| == |s.weight|
              || (s.snapshot.Some? && r.state.weight == s.snapshot.value)
  {
    if s.training == mode then Done(s)
    else if mode then
      match s.snapshot
      case Some(org) => Done(WeightState(true, org, s.snapshot))
      case None => RaisedAttributeError(WeightState(true, s.weight, None))
    else
      Done(WeightState(false, q(s.weight), Some(s.weight)))
  }

  /** The weight `forward` hands to the linear or convolution arithmetic:
      the quantized master weight in training, the stored (already quantized) weight in evaluation. */
  function ForwardWeight(s: WeightState, q: WeightOp): (w: seq<real>)
    ensures |w| == |s.weight|
  {
    if s.training then q(s.weight) else s.weight
  }

  /** The layer invariant: a snapshot, when present, has the weight's size, and
      a layer in evaluation mode has one. */
  predicate Consistent(s: WeightState)
  {
    (s.snapshot.Some? ==> |s.snapshot.value| == |s.weight|)
    && (!s.training ==> s.snapshot.Some?)
  }

  /** `train(mode)` with the mode the layer is already in changes nothing. */
  lemma TrainSameModeIsNoOp(s: WeightState, q: WeightOp)
    ensures TrainStep(s, s.training, q) == Done(s)
  {
  }

  /** Training to evaluation: the snapshot holds the old weight and the weight is its quantized value. */
  lemma TrainToEval(s: WeightState, q: WeightOp)
    requires s.training
    ensures TrainStep(s, false, q) == Done(WeightState(false, q(s.weight), Some(s.weight)))
  {
  }

  /** Evaluation to training restores the snapshot, whatever was written to the weight meanwhile. */
  lemma EvalToTrainRestoresSnapshot(s: WeightState, q: WeightOp)
    requires !s.training && s.snapshot.Some?
    ensures TrainStep(s, true, q) == Done(WeightState(true, s.snapshot.value, s.snapshot))
  {
  }

  /** `train(False)` followed by `train(True)` gives back exactly the weight the layer had. */
  lemma EvalThenTrainRoundTrip(s: WeightState, q: WeightOp)
    requires s.training
    ensures TrainStep(s, false, q).Done?
    ensures TrainStep(TrainStep(s, false, q).state, true, q) == Done(WeightState(true, s.weight, Some(s.weight)))
  {
  }

  /** A second `train(False)` is a no-op: calling it twice is calling it once. */
  lemma EvalTwiceIsEvalOnce(s: WeightState, q: WeightOp)
    ensures TrainStep(s, false, q).Done?
    ensures TrainStep(TrainStep(s, false, q).state, false, q) == TrainStep(s, false, q)
  {
  }

  /** Right after going to evaluation, inference uses the very weight training-mode
      `forward` would have computed, which is the quantized snapshot. */
  lemma EvalForwardMatchesTraining(s: WeightState, q: WeightOp)
    requires s.training
    ensures var e := TrainStep(s, false, q).state;
      e.snapshot.Some? && ForwardWeight(e, q) == ForwardWeight(s, q) == q(e.snapshot.value)
  {
  }

  /** From a consistent state `train` never raises and keeps the state consistent. */
  lemma TrainKeepsConsistent(s: WeightState, mode: bool, q: WeightOp)
    requires Consistent(s)
    ensures TrainStep(s, mode, q).Done? && Consistent(TrainStep(s, mode, q).state)
  {
  }

  /** What may happen to a layer between two calls: a call to `train`, or an in-place
      write to its weight (an optimizer step, for one). */
  datatype Event = SetMode(mode: bool) | WriteWeight(weight: seq<real>)

  /** A write that keeps the weight's shape. */
  predicate ShapePreserving(e: Event, size: nat)
  {
    e.WriteWeight? ==> |e.weight| == size
  }

  /** The effect of one event on the layer. */
  function Apply(s: WeightState, e: Event, q: WeightOp): TrainOutcome
  {
    match e
    case SetMode(mode) => TrainStep(s, mode, q)
    case WriteWeight(w) => Done(s.(weight := w))
  }

  /** Plays a sequence of events; the first exception stops it. */
  function Run(s: WeightState, events: seq<Event>, q: WeightOp): TrainOutcome
    decreases |events|
  {
    if events == [] then Done(s)
    else if Apply(s, events[0], q).RaisedAttributeError? then Apply(s, events[0], q)
    else Run(Apply(s, events[0], q).state, events[1..], q)
  }

  /** Starting from any consistent state (the constructor's, for one), no sequence of mode
      changes and shape-keeping writes ever reaches the copy from a missing snapshot, and
      every state reached is consistent: in evaluation mode there is always a snapshot. */
  lemma {:induction false} RunNeverRaises(s: WeightState, events: seq<Event>, q: WeightOp)
    requires Consistent(s)
    requires forall i :: 0 <= i < |events| ==> ShapePreserving(events[i], |s.weight|)
    ensures Run(s, events, q).Done?
    ensures Consistent(Run(s, events, q).state)
    ensures |Run(s, events, q).state.weight| == |s.weight|
    decreases |events|
  {
    if events != [] {
      var t := Apply(s, events[0], q).state;
      TrainKeepsConsistent(s, if events[0].SetMode? then events[0].mode else true, q);
      assert Consistent(t) && |t.weight| == |s.weight|;
      assert forall i :: 0 <= i < |events[1..]| ==> ShapePreserving(events[1..][i], |t.weight|) by {
        forall i | 0 <= i < |events[1..]|
          ensures ShapePreserving(events[1..][i], |t.weight|)
        {
          assert events[1..][i] == events[i + 1];
        }
      }
      RunNeverRaises(t, events[1..], q);
    }
  }

  /** A state in which evaluation-mode weight still is the quantized snapshot. */
  predicate Reconciled(s: WeightState, q: WeightOp)
  {
    Consistent(s) && (!s.training ==> s.weight == q(s.snapshot.value))
  }

  /** When the weight is only written in training mode, the weight seen in evaluation mode
      is always the quantized value of the master weight saved at the last transition. */
  lemma {:induction false} RunStaysReconciled(s: WeightState, events: seq<Event>, q: WeightOp)
    requires Reconciled(s, q)
    requires forall i :: 0 <= i < |events| ==> ShapePreserving(events[i], |s.weight|)
    requires forall i :: 0 <= i < |events| && events[i].WriteWeight? ==>
      (Run(s, events[..i], q).Done? && Run(s, events[..i], q).state.training)
    ensures Run(s, events, q).Done?
    ensures Reconciled(Run(s, events, q).state, q)
    decreases |events|
  {
    RunNeverRaises(s, events, q);
    if events != [] {
      assert events[..0] == [];
      var t := Apply(s, events[0], q).state;
      TrainKeepsConsistent(s, if events[0].SetMode? then events[0].mode else true, q);
      assert Reconciled(t, q);
      assert forall i :: 0 <= i < |events[1..]| ==> ShapePreserving(events[1..][i], |t.weight|) by {
        forall i | 0 <= i < |events[1..]|
          ensures ShapePreserving(events[1..][i], |t.weight|)
        {
          assert events[1..][i] == events[i + 1];
        }
      }
      forall i | 0 <= i < |events[1..]| && events[1..][i].WriteWeight?
        ensures Run(t, events[1..][..i], q).Done? && Run(t, events[1..][..i], q).state.training
      {
        assert events[..i + 1][0] == events[0];
        assert events[..i + 1][1..] == events[1..][..i];
      }
      RunStaysReconciled(t, events[1..], q);
    }
  }

  // ---------------------------------------------------------------------------
  // Building a quantized layer from a full-precision one
  // ---------------------------------------------------------------------------

  /** A layer handed to `convert`: an instance of `torch.nn.Linear`, of `torch.nn.Conv2d`
      (each possibly of a subclass), or of any other class. */
  datatype HostLayer =
    | LinearLayer(className: string, inFeatures: nat, outFeatures: nat, hasBias: bool)
    | Conv2dLayer(className: string, geometry: ConvGeometry)
    | OtherLayer(className: string)

  /** The `TypeError` raised by `convert`, naming the class it received. */
  datatype ConvertError = TypeError(received: string)

  /** The arguments of the `LinearDorefa` constructor. */
  datatype LinearArgs = LinearArgs(inFeatures: nat, outFeatures: nat, hasBias: bool, bitWidth: nat)

  /** The arguments of the `DorefaConv2d` constructor. */
  datatype ConvArgs = ConvArgs(geometry: ConvGeometry, bitWidth: nat)

  /** `LinearDorefa.convert(other, bit_width)`: the constructor arguments of the new layer,
      or the `TypeError` raised before anything is built. */
  function ConvertLinear(other: HostLayer, bitWidth: nat): (r: Result<LinearArgs, ConvertError>)
    ensures r.Failure? <==> !other.LinearLayer?
    ensures r.Failure? ==> r.error == TypeError(other.className)
    ensures r.Success? ==>
      r.value.inFeatures == other.inFeatures && r.value.outFeatures == other.outFeatures
      && r.value.hasBias == other.hasBias && r.value.bitWidth == bitWidth
  {
    match other
    case LinearLayer(_, inF, outF, hasBias) => Success(LinearArgs(inF, outF, hasBias, bitWidth))
    case _ => Failure(TypeError(other.className))
  }

  /** `DorefaConv2d.convert(other, bit_width)`. */
  function ConvertConv2d(other: HostLayer, bitWidth: nat): (r: Result<ConvArgs, ConvertError>)
    ensures r.Failure? <==> !other.Conv2dLayer?
    ensures r.Failure? ==> r.error == TypeError(other.className)
    ensures r.Success? ==> r.value.geometry == other.geometry && r.value.bitWidth == bitWidth
  {
    match other
    case Conv2dLayer(_, g) => Success(ConvArgs(g, bitWidth))
    case _ => Failure(TypeError(other.className))
  }

  // ---------------------------------------------------------------------------
  // The layers
  // ---------------------------------------------------------------------------

  /** `LinearDorefa`: a `torch.nn.Linear` whose weight is quantized by DoReFa. */
  class LinearDorefa {
    const inFeatures: nat
    const outFeatures: nat
    const bitWidth: nat
    const weightOp: WeightOp
    /** The master weight, `out_features * in_features` elements in row-major order. */
    const weight: array<real>
    const bias: array?<real>
    var training: bool
    /** `weight.org`, created on the first switch to evaluation mode. */
    var org: array?<real>

    ghost predicate Valid()
      reads this, weight, org
    {
      weight.Length == outFeatures * inFeatures
      && (bias != null ==> bias.Length == outFeatures && bias != weight)
      && (org != null ==> org != weight && org != bias)
      && Consistent(State())
    }

    ghost function State(): WeightState
      reads this, weight, org
    {
      WeightState(training, weight[..], if org == null then None else Some(org[..]))
    }

    function BiasValue(): Option<seq<real>>
      reads this, bias
    {
      if bias == null then None else Some(bias[..])
    }

    /** The constructor arguments the layer's attributes record. */
    function Args(): LinearArgs
    {
      LinearArgs(inFeatures, outFeatures, bias != null, bitWidth)
    }

    /** The layer seen as what it also is, a `torch.nn.Linear`. */
    function AsHost(): HostLayer
    {
      LinearLayer("LinearDorefa", inFeatures, outFeatures, bias != null)
    }

    /** `LinearDorefa(in_features, out_features, bias, bit_width)`. The initial weight and
        bias, drawn at random by `torch.nn.Linear`, are parameters. */
    constructor (args: LinearArgs, quantizer: QuantizerFamily, initialWeight: seq<real>, initialBias: seq<real>)
      requires |initialWeight| == args.outFeatures * args.inFeatures
      requires args.hasBias ==> |initialBias| == args.outFeatures
      ensures Valid() && fresh(weight)
      ensures bias != null ==> fresh(bias)
      ensures Args() == args && weightOp == quantizer(args.bitWidth)
      ensures State() == Initial(initialWeight)
      ensures BiasValue() == if args.hasBias then Some(initialBias) else None
    {
      inFeatures, outFeatures := args.inFeatures, args.outFeatures;
      bitWidth := args.bitWidth;
      weightOp := quantizer(args.bitWidth);
      var w := new real[|initialWeight|];
      Tensors.CopyInto(w, initialWeight);
      weight := w;
      if args.hasBias {
        var b := new real[|initialBias|];
        Tensors.CopyInto(b, initialBias);
        bias := b;
      } else {
        bias := null;
      }
      training := true;
      org := null;
    }

    /** `train(mode)`. */
    method Train(mode: bool)
      requires Valid()
      modifies this, weight, org
      ensures Valid()
      ensures TrainStep(old(State()), mode, weightOp) == Done(State())
      ensures old(org) != null ==> org == old(org)
      ensures old(org) == null && org != null ==> fresh(org)
    {
      if training == mode {
        return;
      }
      training := mode;
      if mode {
        Tensors.CopyInto(weight, org[..]);
      } else {
        if org == null {
          org := new real[weight.Length];
          Tensors.CopyInto(org, weight[..]);
        }
        Tensors.CopyInto(org, weight[..]);
        var quantized := weightOp(weight[..]);
        Tensors.CopyInto(weight, quantized);
      }
    }

    /** `forward(input)`: the host's `linear(input, w, bias)` with the weight of the current mode. */
    method Forward<I, O>(input: I, linear: (I, seq<real>, Option<seq<real>>) -> O) returns (out: O)
      requires Valid()
      ensures out == linear(input, ForwardWeight(State(), weightOp), BiasValue())
    {
      var w := if training then weightOp(weight[..]) else weight[..];
      out := linear(input, w, BiasValue());
    }
  }

  /** `DorefaConv2d`: a `torch.nn.Conv2d` whose weight is quantized by DoReFa.
      Unlike `LinearDorefa` it does not keep its bit width, only the quantizer built from it. */
  class DorefaConv2d {
    const geometry: ConvGeometry
    const weightOp: WeightOp
    /** The master weight, flattened. */
    const weight: array<real>
    const bias: array?<real>
    var training: bool
    var org: array?<real>

    ghost predicate Valid()
      reads this, weight, org
    {
      (bias != null) == geometry.hasBias
      && (bias != null ==> bias.Length == geometry.outChannels && bias != weight)
      && (org != null ==> org != weight && org != bias)
      && Consistent(State())
    }

    ghost function State(): WeightState
      reads this, weight, org
    {
      WeightState(training, weight[..], if org == null then None else Some(org[..]))
    }

    function BiasValue(): Option<seq<real>>
      reads this, bias
    {
      if bias == null then None else Some(bias[..])
    }

    /** The layer seen as what it also is, a `torch.nn.Conv2d`. */
    function AsHost(): HostLayer
    {
      Conv2dLayer("DorefaConv2d", geometry)
    }

    /** `DorefaConv2d(in_channels, out_channels, kernel_size, stride, padding, dilation, groups,
        bias, bit_width)`. The initial weight and bias drawn by `torch.nn.Conv2d` are parameters. */
    constructor (args: ConvArgs, quantizer: QuantizerFamily, initialWeight: seq<real>, initialBias: seq<real>)
      requires args.geometry.hasBias ==> |initialBias| == args.geometry.outChannels
      ensures Valid() && fresh(weight)
      ensures bias != null ==> fresh(bias)
      ensures geometry == args.geometry && weightOp == quantizer(args.bitWidth)
      ensures State() == Initial(initialWeight)
      ensures BiasValue() == if args.geometry.hasBias then Some(initialBias) else None
    {
      geometry := args.geometry;
      weightOp := quantizer(args.bitWidth);
      var w := new real[|initialWeight|];
      Tensors.CopyInto(w, initialWeight);
      weight := w;
      if args.geometry.hasBias {
        var b := new real[|initialBias|];
        Tensors.CopyInto(b, initialBias);
        bias := b;
      } else {
        bias := null;
      }
      training := true;
      org := null;
    }

    /** `train(mode)`. */
    method Train(mode: bool)
      requires Valid()
      modifies this, weight, org
      ensures Valid()
      ensures TrainStep(old(State()), mode, weightOp) == Done(State())
      ensures old(org) != null ==> org == old(org)
      ensures old(org) == null && org != null ==> fresh(org)
    {
      if training == mode {
        return;
      }
      training := mode;
      if mode {
        Tensors.CopyInto(weight, org[..]);
      } else {
        if org == null {
          org := new real[weight.Length];
          Tensors.CopyInto(org, weight[..]);
        }
        Tensors.CopyInto(org, weight[..]);
        var quantized := weightOp(weight[..]);
        Tensors.CopyInto(weight, quantized);
      }
    }

    /** `forward(input)`: the host's `conv2d(input, w, bias, stride, padding, dilation, groups)`
        with the weight of the current mode. */
    method Forward<I, O>(input: I, conv2d: (I, seq<real>, Option<seq<real>>, (nat, nat), (nat, nat), (nat, nat), nat) -> O)
      returns (out: O)
      requires Valid()
      ensures out == conv2d(input, ForwardWeight(State(), weightOp), BiasValue(),
                            geometry.stride, geometry.padding, geometry.dilation, geometry.groups)
    {
      var w := if training then weightOp(weight[..]) else weight[..];
      out := conv2d(input, w, BiasValue(), geometry.stride, geometry.padding, geometry.dilation, geometry.groups);
    }
  }

  /** A DoReFa linear layer is itself a `torch.nn.Linear`, so it can be converted again,
      and the conversion rebuilds the arguments it was made from, with the new bit width. */
  lemma ConvertLinearIsStable(layer: LinearDorefa, bitWidth: nat)
    ensures ConvertLinear(layer.AsHost(), bitWidth) == Success(layer.Args().(bitWidth := bitWidth))
  {
  }

  /** Likewise a DoReFa convolution converts to a layer of the same geometry; its bit width is
      the one passed to `convert`, since the layer does not keep its own. */
  lemma ConvertConv2dIsStable(layer: DorefaConv2d, bitWidth: nat)
    ensures ConvertConv2d(layer.AsHost(), bitWidth) == Success(ConvArgs(layer.geometry, bitWidth))
  {
  }
}
