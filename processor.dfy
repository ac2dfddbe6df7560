/** The wavefolder processor: how it turns stored parameter values into the
    engine's configuration and a variant, and what one block callback does
    to the audio buffer. */
module Processor {
  import opened BusLayout
  import opened Parameters
  import opened FoldEngine

  /** The largest valid variant index: the choice has three entries. */
  const MaxTypeIndex := 2

  /** Conversion of a float to int: rounds toward zero. */
  function TruncateToInt(x: real): (n: int)
    ensures 0.0 <= x ==> n as real <= x < n as real + 1.0
    ensures x < 0.0 ==> n as real - 1.0 < x <= n as real
  {
    if x >= 0.0 then x.Floor else -((-x).Floor)
  }

  /** `v` limited to the interval from `lo` to `hi`. */
  function Limit(lo: int, hi: int, v: int): (r: int)
    requires lo <= hi
    ensures lo <= r <= hi
    ensures lo <= v <= hi ==> r == v
    ensures v < lo ==> r == lo
    ensures hi < v ==> r == hi
  {
    if v < lo then lo else if hi < v then hi else v
  }

  /** The variant index selected by a raw stored value of the choice: the
      value truncated, then limited to the valid indices. */
  function SelectType(raw: real): (t: int)
    ensures 0 <= t <= MaxTypeIndex
    ensures raw < 1.0 ==> t == 0
    ensures 1.0 <= raw < 2.0 ==> t == 1
    ensures 2.0 <= raw ==> t == 2
  {
    Limit(0, MaxTypeIndex, TruncateToInt(raw))
  }

  /** The transform a variant index dispatches to; an index outside the three
      cases falls back to FoldToRange. */
  function VariantFor(t: int): Variant {
    match t
    case 0 => FoldToRange
    case 1 => SinFold
    case 2 => ComboFold
    case _ => FoldToRange
  }

  /** A variant's position in the choice list. */
  function VariantIndex(v: Variant): nat {
    match v
    case FoldToRange => 0
    case SinFold => 1
    case ComboFold => 2
  }

  /** The dispatch is exhaustive: every variant is reached from its own index
      and only from it, and every index outside them runs FoldToRange. */
  lemma DispatchTable(t: int, v: Variant)
    ensures VariantFor(VariantIndex(v)) == v
    ensures 0 <= t <= MaxTypeIndex ==> VariantIndex(VariantFor(t)) == t
    ensures !(0 <= t <= MaxTypeIndex) ==> VariantFor(t) == FoldToRange
    ensures VariantIndex(v) < |ProcessorChoices| && ProcessorChoices[VariantIndex(v)] == VariantName(v)
  {
  }

  /** For a stored value the choice can hold, the variant that runs is the one
      the choice list names at the stored (truncated) index. */
  lemma SelectedVariantIsChosenEntry(raw: real)
    requires 0.0 <= raw <= (|ProcessorChoices| - 1) as real
    ensures 0 <= TruncateToInt(raw) < |ProcessorChoices|
    ensures VariantName(VariantFor(SelectType(raw))) == ProcessorChoices[TruncateToInt(raw)]
  {
  }

  /** Out-of-range values are clamped, not wrapped: raw 7 selects ComboFold
      and any negative value selects FoldToRange. */
  lemma OutOfRangeTypeIsClamped(raw: real)
    requires raw < 0.0 || 7.0 <= raw
    ensures raw < 0.0 ==> VariantFor(SelectType(raw)) == FoldToRange
    ensures 7.0 <= raw ==> VariantFor(SelectType(raw)) == ComboFold
  {
  }

  /** The store holds every slot the engine configuration is derived from. */
  predicate HasConfigSlots(k: FoldConstants, store: Store) {
    DriveId in store && OutGainId in store && BiasPreId in store && BiasPostId in store
    && k.thresId in store && k.mixId in store && WavefolderId in store
  }

  /** The engine configuration derived from the stored values: decibel gains
      converted to linear gain, bias and threshold as stored, the mix
      percentage as a fraction. */
  function DeriveConfig(k: FoldConstants, store: Store, decibelsToGain: real -> real): FoldConfig
    requires HasConfigSlots(k, store)
  {
    FoldConfig(
      decibelsToGain(store[DriveId]),
      decibelsToGain(store[OutGainId]),
      store[BiasPreId],
      store[BiasPostId],
      store[k.thresId],
      store[k.mixId] / 100.0)
  }

  /** The engine settings that do not go through the decibel conversion lie
      within their parameters' ranges (the mix scaled to a fraction). */
  predicate ConfigInRange(k: FoldConstants, cfg: FoldConfig) {
    && BiasMin <= cfg.biasPre <= BiasMax
    && BiasMin <= cfg.biasPost <= BiasMax
    && k.thresMin <= cfg.threshold <= k.thresMax
    && k.mixMin / 100.0 <= cfg.mix <= k.mixMax / 100.0
  }

  /** A store that matches the schema has every slot the configuration needs,
      a variant value within the choice, and yields an in-range configuration. */
  lemma DeriveConfigInRange(k: FoldConstants, store: Store, decibelsToGain: real -> real)
    requires ValidConstants(k) && StoreMatches(FoldSchema(k), store)
    ensures HasConfigSlots(k, store)
    ensures 0.0 <= store[WavefolderId] <= MaxTypeIndex as real
    ensures ConfigInRange(k, DeriveConfig(k, store, decibelsToGain))
  {
  }

  function Zeros(n: nat): seq<real> {
    seq(n, _ => 0.0)
  }

  /** A block after the clearing step: every channel from `numIn` up to
      `numOut` silenced, the others as they were, and every channel keeping
      its number of samples. */
  function ClearUnused(block: seq<seq<real>>, numIn: nat, numOut: nat): (r: seq<seq<real>>)
    ensures |r| == |block|
    ensures forall c :: 0 <= c < |r| ==> |r[c]| == |block[c]|
    ensures forall c :: 0 <= c < |r| && numIn <= c < numOut ==>
              forall s :: 0 <= s < |r[c]| ==> r[c][s] == 0.0
    ensures forall c :: 0 <= c < |r| && !(numIn <= c < numOut) ==> r[c] == block[c]
  {
    seq(|block|, c requires 0 <= c < |block| =>
      if numIn <= c < numOut then Zeros(|block[c]|) else block[c])
  }

  /** A block after one callback: cleared, then transformed channel by channel. */
  function ProcessedBlock(block: seq<seq<real>>, numIn: nat, numOut: nat,
                          f: Transform, cfg: FoldConfig): seq<seq<real>> {
    ApplyToBlock(ClearUnused(block, numIn, numOut), f, cfg)
  }

  /** Channel by channel, a processed block is the transform of silence on a
      cleared channel and of the incoming samples elsewhere; an in-place
      transform keeps the shape of the block. */
  lemma ProcessedBlockChannels(block: seq<seq<real>>, numIn: nat, numOut: nat,
                               f: Transform, cfg: FoldConfig, c: nat)
    requires c < |block|
    ensures |ProcessedBlock(block, numIn, numOut, f, cfg)| == |block|
    ensures numIn <= c < numOut ==>
              ProcessedBlock(block, numIn, numOut, f, cfg)[c] == f(Zeros(|block[c]|), cfg)
    ensures !(numIn <= c < numOut) ==>
              ProcessedBlock(block, numIn, numOut, f, cfg)[c] == f(block[c], cfg)
    ensures InPlace(f) ==> |ProcessedBlock(block, numIn, numOut, f, cfg)[c]| == |block[c]|
  {
  }

  /** The clearing loop of a block callback: zero-fills every channel from
      `numIn` up to `numOut` and leaves the other channels alone. */
  method ClearUnusedChannels(buffer: array<array<real>>, numIn: nat, numOut: nat)
    requires numOut <= buffer.Length
    requires DistinctChannels(buffer)
    modifies Channels(buffer)
    ensures Block(buffer) == ClearUnused(old(Block(buffer)), numIn, numOut)
  {
    var i := numIn;
    while i < numOut
      invariant numIn <= i
      invariant numIn <= numOut ==> i <= numOut
      invariant numOut < numIn ==> i == numIn
      invariant forall c :: 0 <= c < buffer.Length ==>
                  buffer[c][..] == if numIn <= c < i then Zeros(buffer[c].Length) else old(buffer[c][..])
    {
      var channel := buffer[i];
      forall s | 0 <= s < channel.Length {
        channel[s] := 0.0;
      }
      assert channel[..] == Zeros(channel.Length);
      i := i + 1;
    }
    ghost var before := old(Block(buffer));
    assert forall c :: 0 <= c < buffer.Length ==> before[c] == old(buffer[c][..]);
    ghost var cleared := ClearUnused(before, numIn, numOut);
    forall c | 0 <= c < buffer.Length
      ensures Block(buffer)[c] == cleared[c]
    {
      if numIn <= c < numOut {
        assert |before[c]| == buffer[c].Length;
        assert cleared[c] == Zeros(buffer[c].Length);
      }
    }
  }

  class WavefolderProcessor {
    /** The threshold and mix constants this build uses. */
    const consts: FoldConstants
    /** The library calls made on the engine and for the decibel conversion. */
    const lib: Library
    /** Build flags. */
    const isMidiEffect: bool
    const isSynth: bool
    /** The parameter schema the store was built from. */
    const params: seq<Descriptor>

    /** Current raw parameter values, written by the control side. */
    var store: Store
    /** The engine's configuration and the selected variant index. */
    var wf: FoldConfig
    var wfType: int
    /** The main buses the host has set up. */
    var mainInput: ChannelSet
    var mainOutput: ChannelSet

    ghost predicate Valid()
      reads this
    {
      && ValidConstants(consts)
      && ValidLibrary(lib)
      && params == FoldSchema(consts)
      && StoreMatches(params, store)
      && IsBusesLayoutSupported(mainInput, mainOutput, isMidiEffect, isSynth)
    }

    function TotalNumInputChannels(): nat
      reads this
    {
      Size(mainInput)
    }

    function TotalNumOutputChannels(): nat
      reads this
    {
      Size(mainOutput)
    }

    /** A processor with its schema registered, every parameter at its default
        and the buses its build declares. */
    constructor (k: FoldConstants, lib: Library, isMidiEffect: bool, isSynth: bool)
      requires ValidConstants(k) && ValidLibrary(lib)
      ensures Valid()
      ensures consts == k && this.lib == lib
      ensures this.isMidiEffect == isMidiEffect && this.isSynth == isSynth
      ensures params == FoldSchema(k)
      ensures store.Keys == set d | d in params :: d.id
      ensures forall d :: d in params ==> store[d.id] == DefaultValue(d)
      ensures (mainInput, mainOutput) == DeclaredBuses(isMidiEffect, isSynth)
    {
      FoldSchemaWellFormed(k);
      DeclaredBusesSupported(isMidiEffect, isSynth);
      var layout := CreateParams(k);
      var values := InitialValues(layout);
      var buses := DeclaredBuses(isMidiEffect, isSynth);
      consts := k;
      this.lib := lib;
      this.isMidiEffect := isMidiEffect;
      this.isSynth := isSynth;
      params := layout;
      store := values;
      mainInput := buses.0;
      mainOutput := buses.1;
    }

    /** Pushes the stored values into the engine and selects the variant. */
    method UpdateParameters()
      requires Valid()
      modifies this`wf, this`wfType
      ensures Valid()
      ensures HasConfigSlots(consts, store)
      ensures wf == DeriveConfig(consts, store, lib.decibelsToGain)
      ensures wfType == SelectType(store[WavefolderId])
      ensures 0 <= wfType <= MaxTypeIndex
      ensures ConfigInRange(consts, wf)
    {
      DeriveConfigInRange(consts, store, lib.decibelsToGain);
      wf := wf.(drive := lib.decibelsToGain(store[DriveId]));
      wf := wf.(outGain := lib.decibelsToGain(store[OutGainId]));
      wf := wf.(biasPre := store[BiasPreId]);
      wf := wf.(biasPost := store[BiasPostId]);
      wf := wf.(threshold := store[consts.thresId]);
      wf := wf.(mix := store[consts.mixId] / 100.0);
      var typesIndex := TruncateToInt(store[WavefolderId]);
      wfType := Limit(0, 2, typesIndex);
    }

    /** Playback is about to start: sample rate and block size are not used;
        the engine and variant are set from the store before the first block. */
    method PrepareToPlay(sampleRate: real, samplesPerBlock: int)
      requires Valid()
      modifies this`wf, this`wfType
      ensures Valid()
      ensures HasConfigSlots(consts, store)
      ensures wf == DeriveConfig(consts, store, lib.decibelsToGain)
      ensures wfType == SelectType(store[WavefolderId])
      ensures 0 <= wfType <= MaxTypeIndex
    {
      UpdateParameters();
    }

    /** One block callback: silence the output channels that have no input,
        refresh the engine from the store, run the selected transform over
        the whole buffer with that same configuration. */
    method ProcessBlock(buffer: array<array<real>>)
      requires Valid()
      requires TotalNumOutputChannels() <= buffer.Length
      requires DistinctChannels(buffer)
      modifies this`wf, this`wfType, Channels(buffer)
      ensures Valid()
      ensures HasConfigSlots(consts, store)
      ensures wf == DeriveConfig(consts, store, lib.decibelsToGain)
      ensures wfType == SelectType(store[WavefolderId])
      ensures Block(buffer) == ProcessedBlock(old(Block(buffer)),
                                              TotalNumInputChannels(), TotalNumOutputChannels(),
                                              TransformOf(lib, VariantFor(wfType)), wf)
    {
      var totalNumInputChannels := TotalNumInputChannels();
      var totalNumOutputChannels := TotalNumOutputChannels();

      ClearUnusedChannels(buffer, totalNumInputChannels, totalNumOutputChannels);

      UpdateParameters();

      // The switch on the variant index, default case included, is VariantFor.
      TransformInPlace(buffer, TransformOf(lib, VariantFor(wfType)), wf);
    }
  }

  /** The engine configuration every parameter's default yields. */
  function DefaultConfig(k: FoldConstants, lib: Library): FoldConfig {
    FoldConfig(lib.decibelsToGain(DriveDefault), lib.decibelsToGain(OutGainDefault),
               BiasDefault, BiasDefault, k.thresDefault, k.mixDefault / 100.0)
  }

  /** A store holding every parameter's default yields the default
      configuration and selects FoldToRange. */
  lemma DefaultsSelectFoldToRange(k: FoldConstants, store: Store, lib: Library)
    requires ValidConstants(k)
    requires forall d :: d in FoldSchema(k) ==> d.id in store && store[d.id] == DefaultValue(d)
    ensures HasConfigSlots(k, store)
    ensures DeriveConfig(k, store, lib.decibelsToGain) == DefaultConfig(k, lib)
    ensures VariantFor(SelectType(store[WavefolderId])) == FoldToRange
  {
    var s := FoldSchema(k);
    assert s[0] in s && s[1] in s && s[2] in s && s[3] in s;
    assert s[4] in s && s[5] in s && s[6] in s;
  }

  /** A stereo processor, freshly built and prepared, handed one block: with
      every parameter at its default the variant is FoldToRange, both channels
      are kept (none is cleared) and each is folded with the default
      configuration. */
  method FirstStereoBlock(k: FoldConstants, lib: Library, left: seq<real>, right: seq<real>)
    returns (out: seq<seq<real>>)
    requires ValidConstants(k) && ValidLibrary(lib)
    ensures |out| == 2
    ensures out[0] == lib.foldToRange(left, DefaultConfig(k, lib))
    ensures out[1] == lib.foldToRange(right, DefaultConfig(k, lib))
    ensures |out[0]| == |left| && |out[1]| == |right|
  {
    var p := new WavefolderProcessor(k, lib, false, false);
    DefaultsSelectFoldToRange(k, p.store, lib);
    p.PrepareToPlay(48000.0, 512);

    var buffer := StereoBuffer(left, right);
    ghost var before := Block(buffer);
    p.ProcessBlock(buffer);
    ProcessedBlockChannels(before, 2, 2, lib.foldToRange, DefaultConfig(k, lib), 0);
    ProcessedBlockChannels(before, 2, 2, lib.foldToRange, DefaultConfig(k, lib), 1);
    out := [buffer[0][..], buffer[1][..]];
  }

  /** A fresh two-channel buffer holding the given samples. */
  method StereoBuffer(left: seq<real>, right: seq<real>) returns (buffer: array<array<real>>)
    ensures fresh(buffer) && fresh(Channels(buffer))
    ensures buffer.Length == 2 && DistinctChannels(buffer)
    ensures Block(buffer) == [left, right]
  {
    var l := new real[|left|](i requires 0 <= i < |left| => left[i]);
    var r := new real[|right|](i requires 0 <= i < |right| => right[i]);
    buffer := new array<real>[2](_ => l);
    buffer[1] := r;
    assert l[..] == left && r[..] == right;
    assert buffer[0] == l && buffer[1] == r && l != r;
    assert Channels(buffer) == {l, r};
    assert Block(buffer)[0] == left && Block(buffer)[1] == right;
  }
}
