/**
  What the quantized layers take over from the host library's own layers.
*/
module HostLayers {

  /** The geometry of a `torch.nn.Conv2d`; `kernel_size`, `stride`, `padding` and `dilation`
      are the pairs the host layer normalises its arguments to. */
  datatype ConvGeometry = ConvGeometry(
    inChannels: nat, outChannels: nat, kernelSize: (nat, nat),
    stride: (nat, nat), padding: (nat, nat), dilation: (nat, nat),
    groups: nat, hasBias: bool)
}
