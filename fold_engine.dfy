/** The interface of the fold engine the processor drives: the configuration
    it is given, the three fold variants, and the library calls whose
    arithmetic is outside this model (the decibel conversion and the three
    buffer transforms), supplied as function values. */
module FoldEngine {

  /** The engine's settings, in the units the engine uses: linear gains for
      drive and output, bias and threshold as they are, mix as a fraction. */
  datatype FoldConfig = FoldConfig(
    drive: real, outGain: real, biasPre: real, biasPost: real, threshold: real, mix: real)

  /** The fold variants, in the order the variant choice lists them. */
  datatype Variant = FoldToRange | SinFold | ComboFold

  /** The entry of the variant choice that names a variant. */
  function VariantName(v: Variant): string {
    match v
    case FoldToRange => "FoldToRange"
    case SinFold => "SinFold"
    case ComboFold => "ComboFold"
  }

  /** A transform of one channel's samples under a configuration. */
  type Transform = (seq<real>, FoldConfig) -> seq<real>

  /** The library calls the processor makes. */
  datatype Library = Library(
    decibelsToGain: real -> real,
    foldToRange: Transform,
    foldSin: Transform,
    comboFold: Transform)

  /** A transform that works in place keeps the number of samples. */
  ghost predicate InPlace(f: Transform) {
    forall s, c :: |f(s, c)| == |s|
  }

  ghost predicate ValidLibrary(lib: Library) {
    InPlace(lib.foldToRange) && InPlace(lib.foldSin) && InPlace(lib.comboFold)
  }

  /** The library transform that runs a variant. */
  function TransformOf(lib: Library, v: Variant): (f: Transform)
    ensures ValidLibrary(lib) ==> InPlace(f)
  {
    match v
    case FoldToRange => lib.foldToRange
    case SinFold => lib.foldSin
    case ComboFold => lib.comboFold
  }

  /** A block after a transform has run over every one of its channels. */
  function ApplyToBlock(block: seq<seq<real>>, f: Transform, cfg: FoldConfig): seq<seq<real>> {
    seq(|block|, i requires 0 <= i < |block| => f(block[i], cfg))
  }

  /** The sample values of a buffer of channel arrays. */
  ghost function Block(buffer: array<array<real>>): seq<seq<real>>
    reads buffer, Channels(buffer)
  {
    seq(buffer.Length, i requires 0 <= i < buffer.Length reads buffer, Channels(buffer) => buffer[i][..])
  }

  /** The channel arrays of a buffer, which a transform may write. */
  ghost function Channels(buffer: array<array<real>>): set<array<real>>
    reads buffer
  {
    set i | 0 <= i < buffer.Length :: buffer[i]
  }

  /** Channels that are separate arrays. */
  ghost predicate DistinctChannels(buffer: array<array<real>>)
    reads buffer
  {
    forall i, j :: 0 <= i < j < buffer.Length ==> buffer[i] != buffer[j]
  }

  /** Runs a transform over every channel of the buffer, in place. */
  method TransformInPlace(buffer: array<array<real>>, f: Transform, cfg: FoldConfig)
    requires InPlace(f)
    requires DistinctChannels(buffer)
    modifies Channels(buffer)
    ensures Block(buffer) == ApplyToBlock(old(Block(buffer)), f, cfg)
  {
    var c := 0;
    while c < buffer.Length
      invariant 0 <= c <= buffer.Length
      invariant forall i :: 0 <= i < c ==> buffer[i][..] == f(old(buffer[i][..]), cfg)
      invariant forall i :: c <= i < buffer.Length ==> buffer[i][..] == old(buffer[i][..])
    {
      var channel := buffer[c];
      var folded := f(channel[..], cfg);
      forall k | 0 <= k < channel.Length {
        channel[k] := folded[k];
      }
      assert channel[..] == folded;
      c := c + 1;
    }
  }
}
