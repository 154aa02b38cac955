# SEQ parametric equalizer: filter-chain configuration model

A Dafny model of the logic the SEQ JUCE plugin writes itself in
`Source/PluginProcessor.cpp`:

- **Parameter layout** (`Parameters`): the five ranged float parameters
  (low-cut, high-cut and peak frequency, peak gain, peak quality) with their
  ranges and defaults, and the two slope choices whose labels
  ("12db/Oct" … "48db/Oct") are built by a loop. It also covers the
  snapshot `get_chain_settings` reads once per block. The slope is
  `static_cast` from the raw float, so it is truncated toward zero.
- **Cut-bank state machine** (`FilterChain`): a cut bank is four filter
  slots, each with a bypass flag and a coefficient set. Coefficient sets are
  an opaque type parameter `C`. One update first bypasses all four slots.
  Then, for slope index `s`, it gives slots `0..s` sections `0..s` of the
  designed Butterworth cascade and re-enables them. A slope value that
  matches no case of the switch leaves all four slots bypassed. The
  reference function `Configured` states the update on values; the class
  method `CutFilter.Configure` performs it in place on two arrays and is
  proved equal to it.
- **Processor** (`Processor`): two mono chains (low-cut bank, peak filter,
  high-cut bank). `UpdateFilters` is the update that `prepareToPlay` and
  `processBlock` both run. It takes one snapshot, gives both chains the same
  peak coefficients, and applies the low-cut update to the left bank and
  then to the right bank with the same designed cascade. It leaves both
  high-cut banks untouched. `processBlock` also clears the output channels
  `totalNumInputChannels .. totalNumOutputChannels - 1` over the whole
  block.

JUCE's coefficient designers (`makePeakFilter` and
`designIIRHighpassHighOrderButterworthMethod`) are const function-typed
fields of the processor. The model relies on one fact about the Butterworth
designer: a positive even order N gives N / 2 sections. The host supplies
the sample rate and the channel counts as parameters.

Where the plugin's intended design and its code differ, the model follows
the code. The code never configures the high-cut bank. It does not clamp a
negative peak quality. A slope outside the four enumerators enables no
slot, instead of being impossible.

## Model

| member | source | states |
|---|---|---|
| `Parameters.NatToDecimal` | Source/PluginProcessor.cpp:464 | the number is written as a non-empty string of decimal digits with no leading zero (except for 0 itself) |
| `Parameters.DecimalRoundTrip` | Source/PluginProcessor.cpp:464 | reading the decimal text back gives the number that was written |
| `Parameters.SlopeLabelReadsBack` | Source/PluginProcessor.cpp:461-467 | the number in front of "db/Oct" in label i reads as 12 (i + 1) |
| `Parameters.SlopeLabelInjective` | Source/PluginProcessor.cpp:461-468 | two choices with the same label are the same choice, so each label names one slope |
| `Parameters.SlopeLabelsSpelledOut` | Source/PluginProcessor.cpp:461-467 | the choice list is exactly "12db/Oct", "24db/Oct", "36db/Oct", "48db/Oct" |
| `Parameters.BuildSlopeLabels` | Source/PluginProcessor.cpp:460-467 | the loop produces four labels, label i being label i of the choice list, all distinct |
| `Parameters.CreateParameterLayout` | Source/PluginProcessor.cpp:427-470 | five float and two choice parameters covering all seven identifiers, each with its declared range and default (frequencies 20-20000 step 1 with defaults 20, 20000 and 750; gain -24-24 step 0.5, default 0; quality -0.1-10 step 0.05, default 1); every float default lies inside its range and on its step grid; both choices list the slope labels and default to index 0; the quality range starts below zero |
| `Parameters.DefaultValues` | Source/PluginProcessor.h:59 | a fresh value tree has a value for every identifier, each the parameter's default, and these values respect the layout |
| `Parameters.TruncateToInt` | Source/PluginProcessor.cpp:255-256 | the cast truncates toward zero: the result is the whole number between the value and zero that is less than one away |
| `Parameters.GetChainSettings` | Source/PluginProcessor.cpp:245-259 | the five frequencies, gain and quality are the raw values read once; each slope is the whole number between its raw value and zero that is less than one away from it, as the static_cast truncates |
| `Parameters.SnapshotWithinRanges` | Source/PluginProcessor.cpp:248-256 | raw values within the layout give slopes in 0..3, frequencies in [20, 20000], gain in [-24, 24] and quality in [-0.1, 10] |
| `Parameters.DefaultSnapshot` | Source/PluginProcessor.cpp:245-259 | the first snapshot of a fresh processor is 750 Hz / 0 dB / Q 1, low cut 20 Hz, high cut 20000 Hz, both slopes index 0 |
| `FilterChain.Configured` | Source/PluginProcessor.cpp:285-328 | after an update, slot i is enabled exactly when the slope is in 0..3 and i <= slope; an enabled slot holds designed section i; a bypassed slot keeps its previous coefficients |
| `FilterChain.EnabledCount` | Source/PluginProcessor.cpp:285-328 | the number of enabled slots is slope + 1 for the four slopes; any other value leaves every slot bypassed |
| `FilterChain.ConfiguredForgetsHistory` | Source/PluginProcessor.cpp:285-288 | the enabled set and the enabled coefficients after an update do not depend on the bank's previous state |
| `FilterChain.ConfiguredIdempotent` | Source/PluginProcessor.cpp:285-328 | repeating an update with the same slope and cascade changes nothing |
| `FilterChain.SteepToShallow` | Source/PluginProcessor.cpp:285-328 | a 48 then 12 dB/Oct update leaves slot 0 enabled with the new section and slots 1..3 bypassed holding the 48 dB/Oct sections |
| `FilterChain.LabelMatchesDesignOrder` | Source/PluginProcessor.cpp:282 | label i reads 6 dB/Oct per order of the requested design, and the switch enables one slot per second-order section of that order |
| `FilterChain.CutFilter.constructor` | Source/PluginProcessor.h:62-65 | a new bank has four unbypassed slots, each holding the initial coefficients |
| `FilterChain.CutFilter.Configure` | Source/PluginProcessor.cpp:283-328 | the in-place reset and switch leave the bank's flags and coefficients equal to `Configured` of its previous state |
| `FilterChain.MonoChain.constructor` | Source/PluginProcessor.h:64-65 | a new chain has two fresh, separate banks and the initial peak coefficients |
| `Processor.DesignerCoversSwitch` | Source/PluginProcessor.cpp:282 | the cascade requested with order 2 (s + 1) has s + 1 sections for s in 0..3, so every index the switch reads exists |
| `Processor.ClearChannel` | Source/PluginProcessor.cpp:274 | every sample of the given channel becomes zero and every other channel is unchanged |
| `Processor.ClearUnusedOutputs` | Source/PluginProcessor.cpp:273-274 | channels in [inputs, outputs) are zero for every sample of the block; all other channels are unchanged |
| `Processor.SeqAudioProcessor.constructor` | Source/PluginProcessor.h:59-65 | the value tree holds every default; the two chains own separate arrays; both peaks hold the initial coefficients and all four banks have four unbypassed slots holding them, so the chains start in step |
| `Processor.SeqAudioProcessor.UpdateFilters` | Source/PluginProcessor.cpp:276-375 | both peaks get the coefficients designed from the snapshot; both low-cut banks become `Configured` with the same cascade; both high-cut banks are unchanged; afterwards the chains have equal peaks, equal low-cut flags and equal coefficients in every enabled slot |
| `Processor.SeqAudioProcessor.PrepareToPlay` | Source/PluginProcessor.cpp:96-211 | the same filter update at the sample rate passed in |
| `Processor.SeqAudioProcessor.ProcessBlock` | Source/PluginProcessor.cpp:261-384 | unused output channels are cleared, then the filter update runs at the host's sample rate, leaving the chains in step |

## Left out

- IIR sample processing (`left_chain.process` and `right_chain.process`, Source/PluginProcessor.cpp:377-383) and `ScopedNoDenormals`: floating-point DSP inside JUCE. A bypassed slot behaving as identity is JUCE's promise, not this code's.
- Processor.SeqAudioProcessor.ProcessBlock: its buffer postcondition describes the buffer before the chains filter channels 0 and 1 in place, because the filtering is left out.
- Coefficient design (`makePeakFilter`, `decibelsToGain`, `designIIRHighpassHighOrderButterworthMethod`): JUCE floating-point maths. These are opaque function fields. The decibel-to-gain conversion is folded into the peak designer, which receives the gain in decibels.
- Filter delay-line state and its reset in JUCE's `prepare`: not modelled. For the same reason `samplesPerBlock` has no effect in `PrepareToPlay`.
- Float width: parameter values are reals, not 32-bit floats. Rounding of 0.05 and 0.1 is not modelled.
- High-cut coefficient assignment: the code has none (see the TODO at Source/PluginProcessor.cpp:115). The model keeps both high-cut banks unchanged by every update, as the code does.
- Clamping of a non-positive peak quality: the code has none. The layout admits -0.1, and the model passes the raw quality to the peak designer.
- State persistence (`getStateInformation` and `setStateInformation`): a foreign serialisation format. The value tree is replaced only when the parsed tree is valid; this guard is not modelled.
- Cross-thread atomic parameter reads: the snapshot is a plain record read from the `values` map.
- The editor, plugin metadata getters, program stubs and `isBusesLayoutSupported`: host glue. `ProcessBlock` requires at least two channels because channel 1 is read unconditionally, even though mono layouts are accepted.
- Parameter identifier strings (`LOW_CUT_FREQ` and the others) are defined in a header that is not part of this model. They are modelled as the enumeration `ParamId`.
