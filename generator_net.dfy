/**
 * The layer list that `Generator.__init__` and `ResnetBlock.__init__` in
 * server/main.py build, reduced to what their integer arithmetic decides: which
 * layers come in which order and with how many channels. Weights, tensors and
 * `forward` are not modelled.
 */
module GeneratorNet {
  import opened Wrappers

  /** One entry of a `torch.nn.Sequential` list, with its constructor arguments. */
  datatype Layer =
    | Conv2d(inChannels: nat, outChannels: nat, kernelSize: nat, stride: nat, padding: nat)
    | ConvTranspose2d(inChannels: nat, outChannels: nat, kernelSize: nat, stride: nat,
                      padding: nat, outputPadding: nat)
    | InstanceNorm2d(numFeatures: nat)
    | ReLU
    | Tanh
    | Residual(channels: nat, convBlock: seq<Layer>)   // x + convBlock(x)

  /**
   * The channel count a layer produces from `c` input channels, or None when the
   * layer does not accept `c` channels. A residual block adds its input to the
   * output of its convolutions, so those must give back exactly `c` channels.
   */
  function LayerFlow(l: Layer, c: nat): (r: Option<nat>)
    ensures (l.Conv2d? || l.ConvTranspose2d?) ==>
      (r.Some? <==> l.inChannels == c) && (r.Some? ==> r.value == l.outChannels)
    ensures (l.InstanceNorm2d? ==> (r.Some? <==> l.numFeatures == c))
    ensures (l.ReLU? || l.Tanh?) ==> r == Some(c)
    ensures l.Residual? && r.Some? ==> l.channels == c && Flow(l.convBlock, c) == Some(c)
    ensures !l.Conv2d? && !l.ConvTranspose2d? && r.Some? ==> r.value == c
    decreases l, 1
  {
    match l
    case Conv2d(i, o, _, _, _) => if i == c then Some(o) else None
    case ConvTranspose2d(i, o, _, _, _, _) => if i == c then Some(o) else None
    case InstanceNorm2d(n) => if n == c then Some(c) else None
    case ReLU => Some(c)
    case Tanh => Some(c)
    case Residual(n, block) => if n == c && Flow(block, c) == Some(c) then Some(c) else None
  }

  /** The channel count a whole list produces, layer after layer, or None on a mismatch. */
  function Flow(layers: seq<Layer>, c: nat): Option<nat>
    decreases layers, 0
  {
    if layers == [] then Some(c)
    else
      match LayerFlow(layers[0], c)
      case None => None
      case Some(d) => Flow(layers[1..], d)
  }

  /** The (in, out) channel pairs of the layers that have them, in order. */
  function ChannelPairs(layers: seq<Layer>): seq<(nat, nat)>
  {
    if layers == [] then []
    else
      var rest := ChannelPairs(layers[1..]);
      match layers[0]
      case Conv2d(i, o, _, _, _) => [(i, o)] + rest
      case ConvTranspose2d(i, o, _, _, _, _) => [(i, o)] + rest
      case Residual(n, _) => [(n, n)] + rest
      case _ => rest
  }

  /** The pairs lead from `c` to `d`, each pair's input being the previous pair's output. */
  predicate Chained(c: nat, pairs: seq<(nat, nat)>, d: nat)
    decreases |pairs|
  {
    if pairs == [] then c == d else pairs[0].0 == c && Chained(pairs[0].1, pairs[1..], d)
  }

  /** The list `ResnetBlock.__init__` builds as its `conv_block`. */
  function ResnetConvBlock(channels: nat): (block: seq<Layer>)
    ensures Flow(block, channels) == Some(channels)
    ensures forall c: nat :: c != channels ==> Flow(block, c) == None
    ensures ChannelPairs(block) == [(channels, channels), (channels, channels)]
  {
    var block := [ Conv2d(channels, channels, 3, 1, 1),
                   InstanceNorm2d(channels),
                   ReLU,
                   Conv2d(channels, channels, 3, 1, 1),
                   InstanceNorm2d(channels) ];
    assert Flow(block[4..], channels) == Some(channels);
    assert Flow(block[3..], channels) == Some(channels);
    assert Flow(block[2..], channels) == Some(channels);
    assert Flow(block[1..], channels) == Some(channels);
    assert ChannelPairs(block[4..]) == [];
    assert ChannelPairs(block[3..]) == [(channels, channels)];
    assert ChannelPairs(block[1..]) == [(channels, channels)];
    block
  }

  /** `ResnetBlock(channels)`: accepted only at `channels` channels, which it gives back. */
  function ResnetBlock(channels: nat): (l: Layer)
    ensures l.Residual? && l.channels == channels
    ensures forall c: nat :: LayerFlow(l, c) == if c == channels then Some(c) else None
  {
    Residual(channels, ResnetConvBlock(channels))
  }

  /** Python's `range(n)` runs `max(n, 0)` times. */
  function RangeCount(n: int): nat {
    if n < 0 then 0 else n
  }

  /** The channel pairs the generator is designed to have: 64 -> 128 -> 256, residual, 256 -> 128 -> 64. */
  function GeneratorPairs(inputChannels: nat, outputChannels: nat, numResBlocks: int): seq<(nat, nat)> {
    [(inputChannels, 64), (64, 128), (128, 256)]
    + seq(RangeCount(numResBlocks), _ => (256, 256))
    + [(256, 128), (128, 64), (64, outputChannels)]
  }

  // ---------------------------------------------------------------------------
  // Lemmas

  /** Running two lists one after the other is running their concatenation. */
  lemma {:induction false} FlowAppend(a: seq<Layer>, b: seq<Layer>, c: nat)
    ensures Flow(a + b, c) == if Flow(a, c).None? then None else Flow(b, Flow(a, c).value)
    decreases a
  {
    if a == [] {
      assert a + b == b;
    } else {
      assert (a + b)[0] == a[0];
      assert (a + b)[1..] == a[1..] + b;
      match LayerFlow(a[0], c)
      case None =>
      case Some(d) => FlowAppend(a[1..], b, d);
    }
  }

  lemma {:induction false} ChannelPairsAppend(a: seq<Layer>, b: seq<Layer>)
    ensures ChannelPairs(a + b) == ChannelPairs(a) + ChannelPairs(b)
    decreases a
  {
    if a == [] {
      assert a + b == b;
    } else {
      assert (a + b)[0] == a[0];
      assert (a + b)[1..] == a[1..] + b;
      ChannelPairsAppend(a[1..], b);
    }
  }

  /**
   * A list that carries `c` channels through to `d` has its channel pairs chained
   * from `c` to `d`: every layer's input is the previous layer's output.
   */
  lemma {:induction false} FlowChains(layers: seq<Layer>, c: nat)
    requires Flow(layers, c).Some?
    ensures Chained(c, ChannelPairs(layers), Flow(layers, c).value)
    decreases layers
  {
    if layers != [] {
      var d := LayerFlow(layers[0], c).value;
      FlowChains(layers[1..], d);
    }
  }

  /** A run of residual blocks of one width leaves that width unchanged. */
  lemma {:induction false} ResidualRunPreserves(layers: seq<Layer>, channels: nat)
    requires forall i :: 0 <= i < |layers| ==> layers[i] == ResnetBlock(channels)
    ensures Flow(layers, channels) == Some(channels)
    ensures ChannelPairs(layers) == seq(|layers|, _ => (channels, channels))
    decreases layers
  {
    if layers != [] {
      ResidualRunPreserves(layers[1..], channels);
    }
  }

  /** Appending a block that accepts what the list produces: flows and pairs compose. */
  lemma AppendBlock(model: seq<Layer>, block: seq<Layer>, c: nat, mid: nat)
    requires Flow(model, c) == Some(mid)
    ensures Flow(model + block, c) == Flow(block, mid)
    ensures ChannelPairs(model + block) == ChannelPairs(model) + ChannelPairs(block)
  {
    FlowAppend(model, block, c);
    ChannelPairsAppend(model, block);
  }

  // ---------------------------------------------------------------------------
  // Generator.__init__

  /** A convolution (or transposed one) followed by instance norm and ReLU. */
  function ConvNormRelu(conv: Layer, channels: nat): seq<Layer> {
    [conv, InstanceNorm2d(channels), ReLU]
  }

  /** A convolution block from `i` to `o` channels carries `i` to `o` and has the one pair (i, o). */
  lemma ConvNormReluFlow(conv: Layer, i: nat, o: nat)
    requires conv.Conv2d? || conv.ConvTranspose2d?
    requires conv.inChannels == i && conv.outChannels == o
    ensures Flow(ConvNormRelu(conv, o), i) == Some(o)
    ensures ChannelPairs(ConvNormRelu(conv, o)) == [(i, o)]
  {
    var b := ConvNormRelu(conv, o);
    assert Flow(b[2..], o) == Some(o);
    assert Flow(b[1..], o) == Some(o);
    assert ChannelPairs(b[2..]) == [] && ChannelPairs(b[1..]) == [];
  }

  /** The 7x7 stem: `input_channels` to 64 channels. */
  function Stem(inputChannels: nat): seq<Layer> {
    ConvNormRelu(Conv2d(inputChannels, 64, 7, 1, 3), 64)
  }

  /** The first `i` stride-2 downsampling blocks: 64 -> 128, then 128 -> 256. */
  function DownBlocks(i: nat): seq<Layer>
    requires i <= 2
  {
    if i == 0 then []
    else if i == 1 then ConvNormRelu(Conv2d(64, 128, 3, 2, 1), 128)
    else DownBlocks(1) + ConvNormRelu(Conv2d(128, 256, 3, 2, 1), 256)
  }

  /** `n` residual blocks of one width. */
  function ResidualRun(width: nat, n: nat): seq<Layer> {
    seq(n, _ => ResnetBlock(width))
  }

  /** One more residual block extends the run by one. */
  lemma ResidualRunStep(width: nat, n: nat)
    ensures ResidualRun(width, n + 1) == ResidualRun(width, n) + [ResnetBlock(width)]
  {
  }

  /** The first `i` transposed upsampling blocks: 256 -> 128, then 128 -> 64. */
  function UpBlocks(i: nat): seq<Layer>
    requires i <= 2
  {
    if i == 0 then []
    else if i == 1 then ConvNormRelu(ConvTranspose2d(256, 128, 3, 2, 1, 1), 128)
    else UpBlocks(1) + ConvNormRelu(ConvTranspose2d(128, 64, 3, 2, 1, 1), 64)
  }

  /** The final 7x7 convolution to `output_channels` and the tanh. */
  function Head(outputChannels: nat): seq<Layer> {
    [Conv2d(64, outputChannels, 7, 1, 3), Tanh]
  }

  /** `in_channels` after `i` passes of the downsampling loop. */
  function DownWidth(i: nat): nat
    requires i <= 2
  {
    if i == 0 then 64 else if i == 1 then 128 else 256
  }

  /** `in_channels` after `i` passes of the upsampling loop. */
  function UpWidth(i: nat): nat
    requires i <= 2
  {
    if i == 0 then 256 else if i == 1 then 128 else 64
  }

  /** One more downsampling block is the next block of `DownBlocks`. */
  lemma DownStep(i: nat)
    requires i < 2
    ensures DownBlocks(i + 1)
         == DownBlocks(i) + ConvNormRelu(Conv2d(DownWidth(i), 2 * DownWidth(i), 3, 2, 1), 2 * DownWidth(i))
  {
  }

  /** One more upsampling block is the next block of `UpBlocks`. */
  lemma UpStep(i: nat)
    requires i < 2
    ensures UpBlocks(i + 1)
         == UpBlocks(i) + ConvNormRelu(ConvTranspose2d(UpWidth(i), UpWidth(i) / 2, 3, 2, 1, 1), UpWidth(i) / 2)
  {
  }

  /** The layer list of `Generator(input_channels, output_channels, num_res_blocks)`, stage by stage. */
  function GeneratorLayers(inputChannels: nat, outputChannels: nat, numResBlocks: int): seq<Layer> {
    Stem(inputChannels) + DownBlocks(2) + ResidualRun(256, RangeCount(numResBlocks))
    + UpBlocks(2) + Head(outputChannels)
  }

  /** The final convolution and tanh carry 64 channels to `out` with the one pair (64, out). */
  lemma HeadFlow(out: nat)
    ensures Flow(Head(out), 64) == Some(out)
    ensures ChannelPairs(Head(out)) == [(64, out)]
  {
    var head := Head(out);
    assert Flow(head[1..], out) == Some(out);
    assert ChannelPairs(head[1..]) == [];
  }

  /** The stem and the downsampling take `input_channels` to 256 channels: (in, 64), (64, 128), (128, 256). */
  lemma EncoderFlow(inputChannels: nat)
    ensures Flow(Stem(inputChannels) + DownBlocks(2), inputChannels) == Some(256)
    ensures ChannelPairs(Stem(inputChannels) + DownBlocks(2)) == [(inputChannels, 64), (64, 128), (128, 256)]
  {
    var d1 := ConvNormRelu(Conv2d(64, 128, 3, 2, 1), 128);
    var d2 := ConvNormRelu(Conv2d(128, 256, 3, 2, 1), 256);
    ConvNormReluFlow(Conv2d(inputChannels, 64, 7, 1, 3), inputChannels, 64);
    ConvNormReluFlow(Conv2d(64, 128, 3, 2, 1), 64, 128);
    ConvNormReluFlow(Conv2d(128, 256, 3, 2, 1), 128, 256);
    AppendBlock(Stem(inputChannels), d1, inputChannels, 64);
    AppendBlock(Stem(inputChannels) + d1, d2, inputChannels, 128);
    assert Stem(inputChannels) + DownBlocks(2) == Stem(inputChannels) + d1 + d2;
  }

  /** The upsampling and the head take 256 channels to `output_channels`: (256, 128), (128, 64), (64, out). */
  lemma DecoderFlow(outputChannels: nat)
    ensures Flow(UpBlocks(2) + Head(outputChannels), 256) == Some(outputChannels)
    ensures ChannelPairs(UpBlocks(2) + Head(outputChannels)) == [(256, 128), (128, 64), (64, outputChannels)]
  {
    var u1 := ConvNormRelu(ConvTranspose2d(256, 128, 3, 2, 1, 1), 128);
    var u2 := ConvNormRelu(ConvTranspose2d(128, 64, 3, 2, 1, 1), 64);
    ConvNormReluFlow(ConvTranspose2d(256, 128, 3, 2, 1, 1), 256, 128);
    ConvNormReluFlow(ConvTranspose2d(128, 64, 3, 2, 1, 1), 128, 64);
    HeadFlow(outputChannels);
    AppendBlock(u1, u2, 256, 128);
    AppendBlock(u1 + u2, Head(outputChannels), 256, 64);
  }

  /**
   * The generator takes `input_channels` to `output_channels` with every layer
   * accepting what the previous one produces; its channel pairs are exactly
   * `GeneratorPairs`.
   */
  lemma GeneratorChannels(inputChannels: nat, outputChannels: nat, numResBlocks: int)
    ensures Flow(GeneratorLayers(inputChannels, outputChannels, numResBlocks), inputChannels)
         == Some(outputChannels)
    ensures ChannelPairs(GeneratorLayers(inputChannels, outputChannels, numResBlocks))
         == GeneratorPairs(inputChannels, outputChannels, numResBlocks)
    ensures Chained(inputChannels, ChannelPairs(GeneratorLayers(inputChannels, outputChannels, numResBlocks)),
                    outputChannels)
  {
    var enc := Stem(inputChannels) + DownBlocks(2);
    var res := ResidualRun(256, RangeCount(numResBlocks));
    var dec := UpBlocks(2) + Head(outputChannels);
    var layers := GeneratorLayers(inputChannels, outputChannels, numResBlocks);
    assert layers == enc + res + dec;
    EncoderFlow(inputChannels);
    DecoderFlow(outputChannels);
    ResidualRunPreserves(res, 256);
    AppendBlock(enc, res, inputChannels, 256);
    AppendBlock(enc + res, dec, inputChannels, 256);
    FlowChains(layers, inputChannels);
  }

  /**
   * `Generator(input_channels, output_channels, num_res_blocks).model`, built by the
   * loops of `__init__`: the stem, two downsamplings that double `out_channels`, the
   * residual blocks at the resulting width, two upsamplings that halve it, and the
   * head. It is exactly `GeneratorLayers`, so it takes `inputChannels` channels to
   * `outputChannels` channels through the pairs of `GeneratorPairs`.
   */
  method BuildGenerator(inputChannels: nat, outputChannels: nat, numResBlocks: int)
    returns (model: seq<Layer>)
    ensures model == GeneratorLayers(inputChannels, outputChannels, numResBlocks)
    ensures Flow(model, inputChannels) == Some(outputChannels)
    ensures ChannelPairs(model) == GeneratorPairs(inputChannels, outputChannels, numResBlocks)
    ensures Chained(inputChannels, ChannelPairs(model), outputChannels)
    ensures |model| == 3 + 3 * 2 + RangeCount(numResBlocks) + 3 * 2 + 2
  {
    model := ConvNormRelu(Conv2d(inputChannels, 64, 7, 1, 3), 64);

    // Each stage's blocks are collected, then appended to `model` as the stage ends.
    var inCh: nat := 64;
    var outCh: nat := 128;
    var blocks := [];
    var i := 0;
    while i < 2
      invariant 0 <= i <= 2
      invariant inCh == DownWidth(i) && outCh == 2 * inCh
      invariant blocks == DownBlocks(i)
    {
      DownStep(i);
      blocks := blocks + ConvNormRelu(Conv2d(inCh, outCh, 3, 2, 1), outCh);
      inCh := outCh;
      outCh := outCh * 2;
      i := i + 1;
    }
    assert blocks == DownBlocks(2) && inCh == 256;
    model := model + blocks;

    blocks := [];
    var r := 0;
    while r < numResBlocks
      invariant 0 <= r <= RangeCount(numResBlocks)
      invariant blocks == ResidualRun(inCh, r)
    {
      ResidualRunStep(inCh, r);
      blocks := blocks + [ResnetBlock(inCh)];
      r := r + 1;
    }
    assert blocks == ResidualRun(256, RangeCount(numResBlocks));
    model := model + blocks;

    outCh := inCh / 2;
    blocks := [];
    i := 0;
    while i < 2
      invariant 0 <= i <= 2
      invariant inCh == UpWidth(i) && outCh == (if i == 0 then 128 else if i == 1 then 64 else 32)
      invariant blocks == UpBlocks(i)
    {
      UpStep(i);
      blocks := blocks + ConvNormRelu(ConvTranspose2d(inCh, outCh, 3, 2, 1, 1), outCh);
      inCh := outCh;
      outCh := outCh / 2;
      i := i + 1;
    }
    assert blocks == UpBlocks(2) && inCh == 64;
    model := model + blocks;

    model := model + Head(outputChannels);
    GeneratorChannels(inputChannels, outputChannels, numResBlocks);
  }
}
