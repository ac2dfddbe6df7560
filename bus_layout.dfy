/** Channel-set negotiation between the host and the wavefolder: the rule the
    processor applies to a proposed main input / main output pair, and the
    buses it declares when it is built. */
module BusLayout {

  /** A main-bus channel set. `Other(n)` stands for any set of n channels that
      is neither the mono nor the stereo layout (discrete, surround, ...);
      `Disabled` is the empty set of a bus that is switched off or absent. */
  datatype ChannelSet = Disabled | Mono | Stereo | Other(channels: nat)

  /** Number of channels in a set. */
  function Size(c: ChannelSet): nat {
    match c
    case Disabled => 0
    case Mono => 1
    case Stereo => 2
    case Other(n) => n
  }

  predicate IsMonoOrStereo(c: ChannelSet) {
    c == Mono || c == Stereo
  }

  /** The layout check, with the two build flags as parameters: a MIDI effect
      accepts everything; otherwise the main output must be mono or stereo and,
      unless the unit is a synth, the main input must be the same set. */
  function IsBusesLayoutSupported(mainInput: ChannelSet, mainOutput: ChannelSet,
                                  isMidiEffect: bool, isSynth: bool): (accepted: bool)
    ensures isMidiEffect ==> accepted
    ensures !isMidiEffect && !IsMonoOrStereo(mainOutput) ==> !accepted
    ensures !isMidiEffect && !isSynth && accepted ==> mainInput == mainOutput
    ensures accepted <==>
              isMidiEffect || (IsMonoOrStereo(mainOutput) && (isSynth || mainInput == mainOutput))
  {
    if isMidiEffect then true
    else if mainOutput != Mono && mainOutput != Stereo then false
    else if !isSynth && mainOutput != mainInput then false
    else true
  }

  /** In a synth build the input set is never consulted. */
  lemma SynthIgnoresInput(in1: ChannelSet, in2: ChannelSet, mainOutput: ChannelSet)
    ensures IsBusesLayoutSupported(in1, mainOutput, false, true)
         == IsBusesLayoutSupported(in2, mainOutput, false, true)
  {
  }

  /** An accepted layout of an audio build has one or two output channels, and
      as many input channels as output channels unless the unit is a synth. */
  lemma AcceptedChannelCounts(mainInput: ChannelSet, mainOutput: ChannelSet, isSynth: bool)
    requires IsBusesLayoutSupported(mainInput, mainOutput, false, isSynth)
    ensures 1 <= Size(mainOutput) <= 2
    ensures !isSynth ==> Size(mainInput) == Size(mainOutput)
  {
  }

  /** The buses the processor declares at construction: a stereo input unless
      the build is a MIDI effect or a synth, a stereo output unless it is a
      MIDI effect. The pair is (main input, main output). */
  function DeclaredBuses(isMidiEffect: bool, isSynth: bool): (ChannelSet, ChannelSet) {
    if isMidiEffect then (Disabled, Disabled)
    else if isSynth then (Disabled, Stereo)
    else (Stereo, Stereo)
  }

  /** The layout the processor declares is one its own check accepts, in every
      build; an audio build starts with two output channels, and with two
      input channels unless it is a synth. */
  lemma DeclaredBusesSupported(isMidiEffect: bool, isSynth: bool)
    ensures !isMidiEffect ==> Size(DeclaredBuses(isMidiEffect, isSynth).1) == 2
    ensures Size(DeclaredBuses(isMidiEffect, isSynth).0) == (if isMidiEffect || isSynth then 0 else 2)
    ensures IsBusesLayoutSupported(DeclaredBuses(isMidiEffect, isSynth).0,
                                   DeclaredBuses(isMidiEffect, isSynth).1,
                                   isMidiEffect, isSynth)
  {
  }
}
