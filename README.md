# Filter-chain configuration engine of a three-stage JUCE equaliser

This project models the core of the FilterPlugin audio plug-in in Dafny and proves properties of it.
The plug-in is a three-stage equaliser with a low-cut bank, a peak stage and a high-cut bank.
The core is the engine that keeps its filter chains configured.

- **The chain** (`ChainTypes`, from `Source/PluginProcessor.h`).
  - A mono chain has three positions in a fixed order: LowCut, Peak, HighCut.
  - Each cut position is a bank of exactly four biquad slots.
  - Every slot holds one coefficient set and one bypass flag.
  - The coefficient set is the type parameter `C`; the chain logic never looks inside it.
  - `MonoChain` is a class. Its two banks are fixed arrays, and its peak stage is a field that is updated in place.
  - `ChainSettings` is the settings snapshot, with the struct's member defaults. `Slope` holds the four tiers of 12 to 48 dB/oct.
- **The processor** (`Processor`, from `Source/PluginProcessor.cpp`).
  - `getChainSettings` reads the snapshot and casts each slope choice with truncation.
  - A slope tier maps to the Butterworth order `(tier + 1) * 2`.
  - `updateCoefficients` replaces a coefficient set as a whole.
  - `update<Index>` writes section `Index` of the design into slot `Index` and enables that slot.
  - `updateCutFilter` bypasses all four slots, then runs a fall-through `switch` that enables slots tier..0.
  - `updateLowCutFilters`, `updateHighCutFilters`, `updatePeakFilter` and `updateFilters` design each coefficient set once and apply it to both `leftChain` and `rightChain`.
  - The slope-label loop of `createParameterLayout` builds the four choice names.
  - Each state-changing operation is a method. Its `ensures` ties the new array contents or chain value to a specification function of the old state, such as `CutFilterUpdated` or `ChainUpdated`. The lemmas beside those functions prove what the source promises.
- **The editor** (`Editor`, from `Source/PluginEditor.cpp`).
  - The response-curve component has a dirty flag and its own mono chain.
  - `parameterValueChanged` sets the flag.
  - `timerCallback` clears the flag and refreshes the chain by the processor's rules, but only when the flag was set.
  - The magnitude loop of `paint` multiplies the magnitudes of the non-bypassed stages only, one entry per pixel column.
  - `getDisplayString` builds a slider label. It shows a choice's name, or a float; above 999 the float is in thousands, with a "k" before the suffix when the suffix is non-empty.

The foreign JUCE numerics are parameters of the model:
- `Designer` holds the Butterworth high-pass and low-pass designers, the peak designer and the dB-to-gain conversion.
- `Numerics` holds the per-stage magnitude, the log-frequency mapping and the gain-to-dB conversion.
- The string formatter is a function argument.

The only property required of the designers is `DesignCovers`. A cut designer must return at least tier + 1 sections, because `update<Index>` indexes the design at every `Index` up to the tier. JUCE's designers return order / 2 = tier + 1 sections.

The model follows the code on what is checked and what is not.
- The code performs no range checks on frequency, Q or sample rate, and the model adds none.
- The only precondition on the parameter values is that each raw slope choice lies in 0 ≤ x < 4, so that its cast names a tier. The parameter registry guarantees this for a choice parameter. The designers' `DesignCovers` above is the other precondition.

## Model

| member | source | states |
|---|---|---|
| ChainTypes.Ordinal | Source/PluginProcessor.h:17-22 | every slope tier's enum value is below the bank size 4 |
| ChainTypes.SlopeAt | Source/PluginProcessor.h:17-22 | each value 0..3 names a tier whose enum value is that number |
| ChainTypes.SlopeOrdinalsAreExact | Source/PluginProcessor.h:17-22 | there are exactly four tiers: enum value and tier determine each other |
| ChainTypes.PositionIndex | Source/PluginProcessor.h:11-15 | a chain position's index is below 3 |
| ChainTypes.PositionAt | Source/PluginProcessor.h:11-15 | the indices 0, 1, 2 name LowCut, Peak, HighCut, with the index round-tripping |
| ChainTypes.Stages | Source/PluginProcessor.h:7-9 | a chain built from two four-slot banks and a peak stage has exactly 9 stages |
| ChainTypes.StagesFollowPositions | Source/PluginProcessor.h:9-15 | the stage order is the stages of position 0, then 1, then 2 |
| ChainTypes.DefaultChainSettings | Source/PluginProcessor.h:24-28 | the member initialisers of the settings struct: gain, both cut frequencies and the peak frequency 0, Q 1, both slopes Slope_12 (a definition; DefaultSlopeChoiceAgrees is about it) |
| ChainTypes.DefaultChain | Source/PluginProcessor.h:65 | a default-constructed chain has every one of its 9 stages enabled with the same initial coefficients |
| ChainTypes.MonoChain.View | Source/PluginProcessor.h:7-9 | the value of a chain object always has two banks of exactly four slots |
| ChainTypes.MonoChain.constructor | Source/PluginProcessor.h:7-9 | a new chain owns two fresh, distinct four-slot bank arrays and holds the default chain |
| Processor.SlopeFromRaw | Source/PluginProcessor.cpp:176-177 | the cast tier is the raw choice value truncated: enum value ≤ raw < enum value + 1 |
| Processor.GetChainSettings | Source/PluginProcessor.cpp:167-180 | each of the five float fields is its raw parameter value (the "Peak Gain" value landing in `peakGainInDecibels`), and both slopes are the casts of their raw choice values |
| Processor.GetChainSettingsRoundTrip | Source/PluginProcessor.cpp:167-180 | reading back any stored settings snapshot gives the same snapshot |
| Processor.DefaultSlopeChoiceAgrees | Source/PluginProcessor.h:24-28 | the registry's default choice index 0 casts to Slope_12, the struct's default for both slopes |
| Processor.CutOrder | Source/PluginProcessor.cpp:225-227 | the requested order is one of 2, 4, 6, 8, and half of it is tier + 1 |
| Processor.CutOrderInjective | Source/PluginProcessor.cpp:238-240 | two tiers request the same order if and only if they are the same tier |
| Processor.LowCutCoefficients | Source/PluginProcessor.cpp:225-227 | the high-pass Butterworth design at the low-cut frequency and the sample rate, of the tier's order (a definition; DesignCovers and CutOrder state what is required and requested) |
| Processor.HighCutCoefficients | Source/PluginProcessor.cpp:238-240 | the low-pass Butterworth design at the high-cut frequency and the sample rate, of the tier's order (a definition) |
| Processor.MakePeakFilter | Source/PluginProcessor.cpp:249-251 | the peak design at the sample rate, peak frequency and Q, with the gain converted from dB to a linear ratio first (a definition) |
| Processor.ReplaceCoefficients | Source/PluginProcessor.cpp:182-184 | the stage holds exactly the replacement set and keeps its bypass flag |
| Processor.BypassAll | Source/PluginProcessor.cpp:198-201 | every slot of the bank is bypassed and keeps its coefficients; the bank keeps its length |
| Processor.FallThrough | Source/PluginProcessor.cpp:203-220 | the fall-through from case k changes no bank length |
| Processor.FallThroughSlots | Source/PluginProcessor.cpp:203-220 | after entering at case k, slots 0..k hold section i and are enabled; the other slots are untouched |
| Processor.CutFilterUpdated | Source/PluginProcessor.cpp:193-221 | the updated bank still has exactly four slots |
| Processor.CutFilterSlots | Source/PluginProcessor.cpp:198-220 | slot i ≤ tier holds section i and is enabled; slot i > tier is bypassed and keeps its old coefficients |
| Processor.CutFilterTierActive | Source/PluginProcessor.cpp:198-220 | after the update, a slot is enabled if and only if its index is at most the tier |
| Processor.TierActiveCount | Source/PluginProcessor.cpp:198-220 | a bank obeying the tier rule has exactly tier + 1 enabled slots |
| Processor.CutFilterIdempotent | Source/PluginProcessor.cpp:193-221 | updating twice with the same sections and tier gives the bank that one update gives |
| Processor.SwitchSteepestToGentlest | Source/PluginProcessor.cpp:198-219 | going from 48 to 12 dB/oct leaves only slot 0 enabled, holding the new section 0 |
| Processor.Update | Source/PluginProcessor.cpp:186-191 | the array afterwards is the old bank with slot k holding section k, enabled |
| Processor.UpdateCutFilter | Source/PluginProcessor.cpp:193-221 | the array afterwards is `CutFilterUpdated` of its old contents, and it obeys the tier rule |
| Processor.ChainUpdated | Source/PluginProcessor.cpp:261-268 | a refreshed chain again has two four-slot banks |
| Processor.ChainUpdatedMeetsSettings | Source/PluginProcessor.cpp:223-259 | after a refresh, both banks obey the tier rule, their enabled slots hold the designed sections, and the peak holds the peak design with its bypass flag kept |
| Processor.ChainUpdatedIdempotent | Source/PluginProcessor.cpp:261-268 | refreshing twice from one snapshot gives the chain that one refresh gives |
| Processor.FilterPluginAudioProcessor.constructor | Source/PluginProcessor.h:65 | the two chains and their four banks are fresh and distinct, and both chains start equal |
| Processor.FilterPluginAudioProcessor.UpdateLowCutFilters | Source/PluginProcessor.cpp:223-234 | both chains' low-cut banks get the single design; nothing else changes; the chains stay equal |
| Processor.FilterPluginAudioProcessor.UpdateHighCutFilters | Source/PluginProcessor.cpp:236-247 | both chains' high-cut banks get the single design; nothing else changes; the chains stay equal |
| Processor.FilterPluginAudioProcessor.UpdatePeakFilter | Source/PluginProcessor.cpp:249-259 | only the peak coefficients change, in both chains; the banks and every bypass flag are unchanged |
| Processor.FilterPluginAudioProcessor.UpdateFilters | Source/PluginProcessor.cpp:261-268 | the left chain becomes the refresh of its old value, the right chain equals the left, and both obey the tier rule |
| Processor.NatToString | Source/PluginProcessor.cpp:287 | the decimal text of a number is never empty and consists of digits only |
| Processor.NatToStringRoundTrip | Source/PluginProcessor.cpp:287 | the decimal text of a number reads back as that number |
| Processor.SlopeChoiceLabels | Source/PluginProcessor.cpp:284-290 | the loop yields exactly four labels, label i being (12 + 12 i) followed by " db/Oct": "12 db/Oct" to "48 db/Oct" |
| Processor.SlopeLabelMatchesOrder | Source/PluginProcessor.cpp:284-290 | the label of a tier's choice index states 6 dB/oct per order of the filter designed for it |
| Editor.ActiveCoefficients | Source/PluginEditor.cpp:188-207 | there is one coefficient set per enabled stage: as many as the processor's count of enabled stages, so never more than the stages |
| Editor.ChainMagnitude | Source/PluginEditor.cpp:184-209 | the curve's magnitude at one frequency: the product of the magnitudes of the enabled stages, in paint order, and of nothing else (a definition; ChainMagnitudeByPosition, AllBypassedIsUnity and RefreshedMagnitude are about it) |
| Editor.PaintOrderIsPermutation | Source/PluginEditor.cpp:188-207 | the paint loop visits every stage of the chain exactly as often as the processing order does |
| Editor.ChainMagnitudeByPosition | Source/PluginEditor.cpp:188-207 | the chain magnitude is the peak factor times the low-cut bank's product times the high-cut bank's product |
| Editor.AllBypassedIsUnity | Source/PluginEditor.cpp:184-207 | a chain with every stage bypassed has magnitude 1 at every frequency |
| Editor.SingleStageProduct | Source/PluginEditor.cpp:188-189 | a stage contributes its magnitude when enabled and the factor 1 when bypassed |
| Editor.Scaled | Source/PluginEditor.cpp:188-207 | one `if(!isBypassed) mag *= …` line: the running value times the stage's magnitude, or unchanged for a bypassed stage (a definition) |
| Editor.RunningMagnitude | Source/PluginEditor.cpp:184-207 | the running product of the paint loop, from a start value, one stage after another (a definition; RunningMagnitudeIsProduct is about it) |
| Editor.RunningMagnitudeIsProduct | Source/PluginEditor.cpp:184-207 | multiplying left to right and skipping bypassed stages gives the product over exactly the enabled stages |
| Editor.CutFilterActiveSections | Source/PluginEditor.cpp:158-159 | the enabled stages of a refreshed bank are exactly the designed sections 0..tier, in order |
| Editor.RefreshedMagnitude | Source/PluginEditor.cpp:149-163 | a refreshed chain's magnitude depends only on the settings and the peak's bypass flag; stale coefficients in bypassed slots never show |
| Editor.RefreshedChainsAgree | Source/PluginEditor.cpp:152-159 | the curve's chain and an audio chain refreshed from one snapshot have the same magnitude at every frequency |
| Editor.ColumnFrequency | Source/PluginEditor.cpp:186 | pixel column i of w maps to the log-scaled frequency of the proportion i / w between 20 Hz and 20 kHz (a definition) |
| Editor.ResponsiveCurve.constructor | Source/PluginEditor.cpp:128-135 | as written, the component starts with the dirty flag clear and the default chain |
| Editor.ResponsiveCurve.Corrected | Source/PluginEditor.cpp:128-135 | corrected: the component starts dirty, with the default chain |
| Editor.ResponsiveCurve.ParameterValueChanged | Source/PluginEditor.cpp:145-147 | any change of any parameter sets the dirty flag and changes nothing else |
| Editor.ResponsiveCurve.TimerCallback | Source/PluginEditor.cpp:149-163 | the flag is cleared; a repaint happens exactly when the flag was set; the chain is refreshed by the processor's rules then and unchanged otherwise |
| Editor.ResponsiveCurve.ApplyStage | Source/PluginEditor.cpp:188-207 | one line of the paint loop multiplies by the stage's magnitude, and leaves the running value unchanged for a bypassed stage |
| Editor.ResponsiveCurve.ResponseMagnitudes | Source/PluginEditor.cpp:178-210 | exactly w entries; entry i is the dB value of the product of the enabled stages' magnitudes at column i's frequency |
| Editor.DefaultChainMatchesOnlySteepest | Source/PluginEditor.cpp:128-135 | a default chain obeys the tier rule if and only if both slopes are 48 dB/oct |
| Editor.OpenEditorAsWritten | Source/PluginEditor.cpp:128-163 | as written, the first tick does not repaint and the curve keeps the default chain; that chain obeys the tier rule only at 48/48 dB/oct, and at every tier it differs from the refreshed chain whenever the peak design differs from the initial coefficients |
| Editor.OpenEditor | Source/PluginEditor.cpp:128-163 | corrected, the first tick repaints and the curve shows the refreshed chain, which obeys the tier rule |
| Editor.SecondTickIsIdle | Source/PluginEditor.cpp:145-163 | on the component as written, after a parameter change and one tick, a second tick with no change in between neither repaints nor changes the curve |
| Editor.ChangeThenTick | Source/PluginEditor.cpp:145-163 | after a parameter change, the next tick repaints and the curve obeys the settings |
| Editor.DisplayString | Source/PluginEditor.cpp:56-90 | the label of a slider: a choice's current name, or the formatted float (in thousands above 999) followed by the suffix (a definition; the label lemmas below are about it) |
| Editor.ChoiceLabelIsName | Source/PluginEditor.cpp:59-60 | a choice parameter shows exactly its current choice name |
| Editor.ThousandsLabel | Source/PluginEditor.cpp:69-87 | above 999 with a suffix: the value / 1000 with two decimals, then " k", then the suffix |
| Editor.UnitsLabel | Source/PluginEditor.cpp:69-87 | up to 999 with a suffix: the value formatted with decimal-places argument 0 (JUCE's default format), then a space, then the suffix |
| Editor.BareNumberLabel | Source/PluginEditor.cpp:81-87 | with an empty suffix, the label is the formatted number alone, with no space and no "k" |
| Editor.OtherParameterLabel | Source/PluginEditor.cpp:76-87 | a slider of any other parameter kind shows no number: a space and the suffix, or nothing for an empty suffix |
| Editor.KiloMarkIffThousands | Source/PluginEditor.cpp:62-87 | for a formatter that never writes "k" and a unit without "k", a float label contains "k" if and only if the value is above 999 and the suffix is non-empty |

## Left out

- Editor.DisplayString: for a parameter that is neither a choice nor a float, the source hits `jassertfalse` at Source/PluginEditor.cpp:78. The model takes the release build, where the assertion is a no-op, so the label is the suffix after a space. The debug-build stop is not modelled.
- Coefficient mathematics. The Butterworth designers, `makePeakFilter` and `decibelsToGain` are JUCE floating-point code, so they are the abstract `Designer`. Its only requirement is the section count in `DesignCovers`.
- Magnitude numerics. `getMagnitudeForFrequency`, `mapToLog10` and `gainToDecibels` are the abstract `Numerics`. Magnitudes are multiplied as reals. Double-precision rounding, and hence the exact effect of the paint loop's order (peak, low cut, high cut), is not modelled.
- Editor.ChainMagnitude: defined as a product over the paint order. That equals the processing order only under real arithmetic, not in double precision.
- Per-sample filtering. `processBlock` and the biquad recurrence are library code.
- Threading. `juce::Atomic` and `compareAndSetBool` become a plain boolean with sequential updates. Concurrent ticks and notifications are not modelled.
- Host plumbing. The model leaves out `prepareToPlay`'s spec set-up, bus layouts, programs, MIDI flags, and state save and restore.
- UI drawing. Out of the model are the rotary slider drawing, the slider bounds, the editor's layout, listener registration and removal, and the path and stroke code of the curve.
- Editor.ResponsiveCurve.ResponseMagnitudes: the path code after the loop reads `mags.front()`. For a zero-width component that reads an empty vector. The path code is not modelled, so that case is not stated.
- Number formatting. `juce::String(value, decimals)` and `String << int` for the slope labels are given by a formatter argument and by `NatToString`.
- Parameter ranges and defaults of `createParameterLayout`. Only the slope-label loop is modelled.
- Source/PluginEditor.h is not part of this model. Its widget declarations do not include the curve component, whose flag the model takes to start false, as `juce::Atomic<bool>` does by default.
- Position-level bypass of the LowCut and HighCut positions. The code never sets or reads it, so the cut positions carry no flag of their own. The peak position's flag is the peak stage's `bypassed` field. No code path sets it, and the model keeps it unchanged.
- The curve's `makeLowCutFilter` and `makeHighCutFilter` are not defined in these sources. They are modelled as the same designer calls that `updateLowCutFilters` and `updateHighCutFilters` make, at the processor's sample rate.
- Processor.FilterPluginAudioProcessor.UpdateFilters: the audio path calls it once per block. The model states one call; block scheduling is host plumbing.

## Findings

| source | as written | input that shows it | evidently intended | confidence | as-written member | corrected member |
|---|---|---|---|---|---|---|
| Source/PluginEditor.cpp:128-135 | the constructor registers the listeners and starts the timer, but leaves the dirty flag false and never refreshes the chain | open the editor with any settings and change no parameter: every tick skips the refresh, and the curve multiplies all 9 stages holding the default coefficients at every tier; below 48 dB/oct it also enables more cut slots than the audio chains, which enable only tier + 1 per bank | the curve shows the current settings from the first tick, as it does after any parameter change | medium, not executed | Editor.OpenEditorAsWritten | Editor.OpenEditor |
