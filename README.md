# Wavefolder processor — a Dafny model

This project models the audio-thread bookkeeping of the `WavefolderProcessor`
plugin:

- the rule that accepts or rejects a proposed main input / output channel set;
- the parameter schema. It has six float parameters: drive, output gain,
  bias before and after the drive, fold threshold and mix. It also has one
  three-way choice, "wavefolder", that selects the fold variant;
- the value store the processor is built with;
- the update that turns stored values into the fold engine's configuration and
  a variant index;
- the block callback. It silences output channels that have no input,
  refreshes the engine, and runs exactly one of the three fold transforms over
  the buffer.

Modules:

- `BusLayout` (`bus_layout.dfy`): channel sets, the layout rule with the
  MIDI-effect and synth build flags as parameters, and the buses the
  processor declares.
- `Parameters` (`parameters.dfy`): descriptors, the schema, the store and its
  defaults.
- `FoldEngine` (`fold_engine.dfy`): the engine configuration record and the
  three variants. The library calls the processor makes are function values
  in a `Library` record: `decibelsToGain` and the three buffer transforms.
  Running a transform over a buffer of channel arrays happens in place.
- `Processor` (`processor.dfy`): float-to-int truncation, `jlimit`, variant
  selection and dispatch, configuration derivation, and the block-level
  specification functions. It also holds the `WavefolderProcessor` class. Its
  fields are the store, the engine configuration `wf`, the variant index
  `wfType` and the main buses. Its methods are `UpdateParameters`,
  `PrepareToPlay` and `ProcessBlock`.

Samples and parameter values are `real`s. The store is a `map` from
parameter identifier to raw value. A choice is stored as its index.

The processor refers to the constants `biasPreId`/`biasPostId`, `thres*` and
`mix*`. The header in this model defines `preBiasId = "biasPre"` and
`postBiasId = "biasPost"` instead and has no threshold or mix constants. The
model uses the strings "biasPre" and "biasPost". It takes the threshold and
mix identifiers, names, ranges and defaults as a `FoldConstants` value. That
value must have a non-empty range containing the default, and identifiers
distinct from all others.

An out-of-range variant index is not reset to variant 0. The code truncates
the stored value, then limits it to the interval from 0 to 2, so a raw 7
selects ComboFold (index 2). The model follows the code
(`OutOfRangeTypeIsClamped`).

## Model

| member | source | states |
|---|---|---|
| `BusLayout.IsBusesLayoutSupported` | source/PluginProcessor.cpp:195-215 | A MIDI effect accepts every layout. Otherwise an output that is neither mono nor stereo is rejected. Otherwise a non-synth build accepts only input equal to output. In full: accepted iff MIDI effect, or output mono/stereo and (synth or input == output). |
| `BusLayout.SynthIgnoresInput` | source/PluginProcessor.cpp:207-213 | In a synth build the answer does not depend on the input channel set. |
| `BusLayout.AcceptedChannelCounts` | source/PluginProcessor.cpp:201-213 | An accepted layout of an audio build has one or two output channels, and equally many input channels unless the build is a synth. |
| `BusLayout.DeclaredBusesSupported` | source/PluginProcessor.cpp:5-13 | The buses the constructor declares depend on the build. They are stereo in/out, or none/stereo for a synth, or none for a MIDI effect. Their channel counts are 2 (or 0 where a bus is absent), and the layout check accepts them. |
| `Parameters.CreateParams` | source/PluginProcessor.cpp:87-158 | The layout built by seven successive adds is exactly the fold schema. |
| `Parameters.FoldSchemaWellFormed` | source/PluginProcessor.cpp:87-158 | The schema has seven entries with ids in order drive, outGain, biasPre, biasPost, threshold, mix, "wavefolder". The ids are distinct and every descriptor is well formed (range non-empty, positive step, default in range). The last entry is the three-way choice FoldToRange/SinFold/ComboFold with default index 0. |
| `Parameters.InitialValues` | source/PluginProcessor.cpp:13 | The store created from the layout has exactly one slot per parameter, holding that parameter's default. For a well-formed schema every slot starts in range. |
| `FoldEngine.TransformOf` | source/PluginProcessor.cpp:234-247 | The transform that runs a variant keeps the number of samples when the library's transforms do. |
| `FoldEngine.TransformInPlace` | source/PluginProcessor.cpp:236-245 | After the call, the buffer holds the transform of every channel's previous samples. |
| `Processor.TruncateToInt` | source/PluginProcessor.cpp:173 | The `(int)` conversion rounds toward zero: for x >= 0 the result n has n <= x < n+1; for x < 0 it has n-1 < x <= n. |
| `Processor.Limit` | source/PluginProcessor.cpp:174 | `jlimit`: the result lies in [lo, hi]. It equals v inside the interval and the nearer bound outside it. |
| `Processor.SelectType` | source/PluginProcessor.cpp:173-174 | The variant index is always in {0, 1, 2}. Raw values below 1 give 0, values in [1, 2) give 1, and values of 2 or more give 2. |
| `Processor.DispatchTable` | source/PluginProcessor.cpp:234-247 | The switch maps 0, 1 and 2 to FoldToRange, SinFold and ComboFold and back, and any other index to FoldToRange. Each variant's index names it in the choice list. |
| `Processor.SelectedVariantIsChosenEntry` | source/PluginProcessor.cpp:147-174 | For any value the choice can hold, the variant that runs is the one the choice list names at the stored index. |
| `Processor.OutOfRangeTypeIsClamped` | source/PluginProcessor.cpp:172-174 | Negative raw values select FoldToRange. Raw values of 7 or more select ComboFold. |
| `Processor.DeriveConfigInRange` | source/PluginProcessor.cpp:161-175 | A store that matches the schema holds every slot the update reads, and its variant value lies in [0, 2]. Bias pre/post and threshold stay in their ranges in the derived configuration, and the mix stays in its range divided by 100. |
| `Processor.ClearUnused` | source/PluginProcessor.cpp:226-228 | Clearing keeps the channel count and every channel's sample count. It zeros every sample of channels numIn to numOut-1 and leaves the other channels unchanged. |
| `Processor.ClearUnusedChannels` | source/PluginProcessor.cpp:226-228 | The clearing loop leaves the buffer equal to `ClearUnused` of its previous contents. |
| `Processor.ProcessedBlockChannels` | source/PluginProcessor.cpp:226-247 | After a callback, a cleared channel holds the transform of silence and every other channel the transform of its input. An in-place transform keeps each channel's length. |
| `Processor.DefaultsSelectFoldToRange` | source/PluginProcessor.cpp:161-175 | With every parameter at its default, the update yields the default configuration and selects FoldToRange. |
| `Processor.FirstStereoBlock` | source/PluginProcessor.cpp:177-248 | A freshly built and prepared stereo processor folds both channels of its first block with FoldToRange and the default configuration. It clears no channel and keeps both lengths. |
| `Processor.WavefolderProcessor.constructor` | source/PluginProcessor.cpp:5-15 | Registers the fold schema, starts every parameter at its default, declares the build's buses and establishes the invariant. |
| `Processor.WavefolderProcessor.UpdateParameters` | source/PluginProcessor.cpp:161-175 | Sets drive and output gain through `decibelsToGain`, passes the two biases and the threshold through, and sets the mix to the stored value / 100. Sets `wfType` to the truncated, limited variant value. Both are in range and the store is unchanged. |
| `Processor.WavefolderProcessor.PrepareToPlay` | source/PluginProcessor.cpp:177-187 | Ignores sample rate and block size. Establishes the configuration and a variant index in {0, 1, 2} before the first block. |
| `Processor.WavefolderProcessor.ProcessBlock` | source/PluginProcessor.cpp:217-248 | The buffer becomes the selected variant's transform of the cleared block. The configuration and variant used are the ones computed from the store in this same call. |

## Left out

- The editor (`source/PluginEditor.cpp`, `source/PluginEditor.h`): widgets, colours, layout and attachments are user interface only.
- Host boilerplate: name, MIDI flags, tail length, programs, `hasEditor`, `createEditor`, `createPluginFilter` and the empty `releaseResources`. They are constants, factories or no-ops.
- `getStateInformation` and `setStateInformation`: both do nothing in the code, so there is nothing to model. A saved session therefore restores no parameter values.
- Concurrency: the store's atomic slots and the control thread that writes them. The store is a plain field that other code may assign between calls, as long as the class invariant holds.
- JUCE's range clamping, step snapping and normalisation of parameter values. The class invariant assumes that every stored value lies within its descriptor's range.
- Floating-point arithmetic and `ScopedNoDenormals`. Values are reals, and `mix / 100` is exact.
- `decibelsToGain` and the three fold transforms belong to libraries outside this model. They are uninterpreted function values. A transform is assumed to map a channel's samples to the same number of samples, with no state carried between channels or blocks.
- Processor.TruncateToInt: does not model the undefined result of converting NaN or a value outside the `int` range. The choice parameter never stores one.
- Processor.WavefolderProcessor.ProcessBlock: the `switch` on `wfType` is stated as the single call `TransformOf(lib, VariantFor(wfType))`. `VariantFor` has the same four cases, including the default. After the update the default case cannot be reached, so a literal copy of the switch would hold a dead branch. The MIDI buffer is ignored, as in the code.
- Processor.WavefolderProcessor.constructor: the initial values of `wf` and `wfType` come from declarations that are not part of this model. The constructor leaves them unconstrained, and `PrepareToPlay` and `ProcessBlock` set them before use.
- The `WaveshaperProcessor` class and its tube-model constants. `source/PluginProcessor.h` declares them, but they belong to a different processor.
- Channel lengths: JUCE buffers give every channel the same number of samples. The model does not require this, and clearing zero-fills each whole channel.
