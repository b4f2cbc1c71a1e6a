/*
 * The audio processor's coefficient-update engine: the slope cast of the
 * settings snapshot, the tier-to-order mapping, the whole-set coefficient
 * replacement, the slope-tier activation of a four-slot cut bank with its
 * fall-through switch, and the per-block update that computes every
 * coefficient set once and applies it to both the left and the right chain.
 *
 * The filter designers are JUCE floating-point code; they are parameters here
 * (a Designer value), and the only thing required of them is the length of the
 * section list a cut designer returns.
 */
module Processor {
  import opened ChainTypes

  /**
   * The foreign designers. `highpass` and `lowpass` take (frequency, sample
   * rate, order) and return the cascaded second-order sections; `peak` takes
   * (sample rate, frequency, Q, linear gain); `decibelsToGain` converts dB.
   */
  datatype Designer<C> = Designer(
    highpass: (real, real, nat) -> seq<C>,
    lowpass: (real, real, nat) -> seq<C>,
    peak: (real, real, real, real) -> C,
    decibelsToGain: real -> real)

  /** The raw values of the seven parameters as the parameter registry stores them. */
  datatype ParameterValues = ParameterValues(
    lowCutFreq: real,
    highCutFreq: real,
    peakFreq: real,
    peakQuality: real,
    peakGain: real,
    lowCutSlope: real,
    highCutSlope: real)

  /** A slope parameter is a choice among four labels, so its raw value is an index below 4. */
  predicate ValidSlopeChoice(x: real)
  {
    0.0 <= x < BankSize as real
  }

  predicate ValidParameters(p: ParameterValues)
  {
    ValidSlopeChoice(p.lowCutSlope) && ValidSlopeChoice(p.highCutSlope)
  }

  /** `static_cast<Slope>` of the raw choice value: truncation toward zero. */
  function SlopeFromRaw(x: real): (s: Slope)
    requires ValidSlopeChoice(x)
    ensures Ordinal(s) as real <= x < Ordinal(s) as real + 1.0
  {
    SlopeAt(x.Floor)
  }

  /** getChainSettings: read every parameter once and cast the two slope choices. */
  function GetChainSettings(p: ParameterValues): (s: ChainSettings)
    requires ValidParameters(p)
    ensures s.lowCutSlope == SlopeFromRaw(p.lowCutSlope) && s.highCutSlope == SlopeFromRaw(p.highCutSlope)
    ensures s.lowCutFreq == p.lowCutFreq && s.highCutFreq == p.highCutFreq
    ensures s.peakFreq == p.peakFreq && s.peakQuality == p.peakQuality && s.peakGainInDecibels == p.peakGain
  {
    ChainSettings(p.peakGain, p.peakFreq, p.peakQuality, p.lowCutFreq, p.highCutFreq,
                  SlopeFromRaw(p.lowCutSlope), SlopeFromRaw(p.highCutSlope))
  }

  /** The raw values under which the registry holds the settings `s` (a slope as its choice index). */
  function StoredParameters(s: ChainSettings): ParameterValues
  {
    ParameterValues(s.lowCutFreq, s.highCutFreq, s.peakFreq, s.peakQuality, s.peakGainInDecibels,
                    Ordinal(s.lowCutSlope) as real, Ordinal(s.highCutSlope) as real)
  }

  /** Reading back stored settings gives the same snapshot: the slope cast recovers every tier. */
  lemma GetChainSettingsRoundTrip(s: ChainSettings)
    ensures ValidParameters(StoredParameters(s))
    ensures GetChainSettings(StoredParameters(s)) == s
  {
    SlopeOrdinalsAreExact(s.lowCutSlope);
    SlopeOrdinalsAreExact(s.highCutSlope);
  }

  /** The default choice index 0 of both slope parameters is the struct's default tier. */
  lemma DefaultSlopeChoiceAgrees()
    ensures SlopeFromRaw(0.0) == DefaultChainSettings().lowCutSlope == DefaultChainSettings().highCutSlope
  {
  }

  /** The Butterworth order requested for a slope tier: 2, 4, 6 or 8, two per biquad section. */
  function CutOrder(s: Slope): (order: nat)
    ensures order == 2 || order == 4 || order == 6 || order == 8
    ensures order / 2 == Ordinal(s) + 1
  {
    (Ordinal(s) + 1) * 2
  }

  /** The tier-to-order map is one-to-one, so the order identifies the tier. */
  lemma CutOrderInjective(s: Slope, t: Slope)
    ensures CutOrder(s) == CutOrder(t) <==> s == t
  {
    SlopeOrdinalsAreExact(s);
    SlopeOrdinalsAreExact(t);
  }

  function LowCutCoefficients<C>(d: Designer<C>, s: ChainSettings, sampleRate: real): seq<C>
  {
    d.highpass(s.lowCutFreq, sampleRate, CutOrder(s.lowCutSlope))
  }

  function HighCutCoefficients<C>(d: Designer<C>, s: ChainSettings, sampleRate: real): seq<C>
  {
    d.lowpass(s.highCutFreq, sampleRate, CutOrder(s.highCutSlope))
  }

  /** makePeakFilter: the gain is converted from dB to a linear ratio before design. */
  function MakePeakFilter<C>(d: Designer<C>, s: ChainSettings, sampleRate: real): C
  {
    d.peak(sampleRate, s.peakFreq, s.peakQuality, d.decibelsToGain(s.peakGainInDecibels))
  }

  /**
   * What the cut updates demand of the designers: a section for every slot the
   * tier enables. JUCE's Butterworth designers return order/2 = tier + 1 sections.
   */
  predicate DesignCovers<C>(d: Designer<C>, s: ChainSettings, sampleRate: real)
  {
    |LowCutCoefficients(d, s, sampleRate)| > Ordinal(s.lowCutSlope)
    && |HighCutCoefficients(d, s, sampleRate)| > Ordinal(s.highCutSlope)
  }

  /** updateCoefficients: the stage's coefficient set is replaced as a whole. */
  function ReplaceCoefficients<C>(stage: Stage<C>, replacement: C): (r: Stage<C>)
    ensures r.coefficients == replacement && r.bypassed == stage.bypassed
  {
    stage.(coefficients := replacement)
  }

  // ---------------------------------------------------------------------------
  // Slope-tier activation of one cut bank

  /** The four bypass writes: every slot passes through and keeps its coefficients. */
  function BypassAll<C>(bank: seq<Stage<C>>): (r: seq<Stage<C>>)
    ensures |r| == |bank|
    ensures forall i :: 0 <= i < |r| ==> r[i].bypassed && r[i].coefficients == bank[i].coefficients
  {
    seq(|bank|, i requires 0 <= i < |bank| => bank[i].(bypassed := true))
  }

  /** update<k>: slot k takes section k of the design and is enabled. */
  function ActivateSlot<C>(bank: seq<Stage<C>>, cs: seq<C>, k: nat): seq<Stage<C>>
    requires k < |bank| && k < |cs|
  {
    bank[k := ReplaceCoefficients(bank[k], cs[k]).(bypassed := false)]
  }

  /** The fall-through of the switch: entering at case k runs update<k>, update<k-1>, ..., update<0>. */
  function FallThrough<C>(bank: seq<Stage<C>>, cs: seq<C>, k: int): (r: seq<Stage<C>>)
    requires -1 <= k < |bank| && k < |cs|
    ensures |r| == |bank|
    decreases k + 1
  {
    if k < 0 then bank else FallThrough(ActivateSlot(bank, cs, k), cs, k - 1)
  }

  /** The bank after updateCutFilter(bank, cs, slope). */
  function CutFilterUpdated<C>(bank: seq<Stage<C>>, cs: seq<C>, slope: Slope): (r: seq<Stage<C>>)
    requires |bank| == BankSize && |cs| > Ordinal(slope)
    ensures |r| == BankSize
  {
    FallThrough(BypassAll(bank), cs, Ordinal(slope))
  }

  lemma {:induction false} FallThroughSlots<C>(bank: seq<Stage<C>>, cs: seq<C>, k: int)
    requires -1 <= k < |bank| && k < |cs|
    ensures forall i :: 0 <= i < |bank| ==>
      FallThrough(bank, cs, k)[i] == if i <= k then Stage(cs[i], false) else bank[i]
    decreases k + 1
  {
    if k >= 0 {
      FallThroughSlots(ActivateSlot(bank, cs, k), cs, k - 1);
    }
  }

  /**
   * Slot by slot: the slots 0..tier hold the designed sections and are enabled;
   * the slots above the tier are bypassed and keep their previous coefficients.
   */
  lemma CutFilterSlots<C>(bank: seq<Stage<C>>, cs: seq<C>, slope: Slope)
    requires |bank| == BankSize && |cs| > Ordinal(slope)
    ensures forall i :: 0 <= i < BankSize ==>
      CutFilterUpdated(bank, cs, slope)[i] ==
        if i <= Ordinal(slope) then Stage(cs[i], false) else Stage(bank[i].coefficients, true)
  {
    FallThroughSlots(BypassAll(bank), cs, Ordinal(slope));
  }

  /** Exactly the leading tier + 1 slots of a four-slot bank are enabled. */
  predicate TierActive<C>(bank: seq<Stage<C>>, slope: Slope)
  {
    |bank| == BankSize && forall i :: 0 <= i < |bank| ==> (!bank[i].bypassed <==> i <= Ordinal(slope))
  }

  lemma CutFilterTierActive<C>(bank: seq<Stage<C>>, cs: seq<C>, slope: Slope)
    requires |bank| == BankSize && |cs| > Ordinal(slope)
    ensures TierActive(CutFilterUpdated(bank, cs, slope), slope)
  {
    CutFilterSlots(bank, cs, slope);
  }

  /** The number of enabled stages. */
  function ActiveCount<C>(stages: seq<Stage<C>>): nat
  {
    if stages == [] then 0 else (if stages[0].bypassed then 0 else 1) + ActiveCount(stages[1..])
  }

  lemma {:induction false} LeadingActiveCount<C>(stages: seq<Stage<C>>, k: nat)
    requires k <= |stages|
    requires forall i :: 0 <= i < |stages| ==> (!stages[i].bypassed <==> i < k)
    ensures ActiveCount(stages) == k
  {
    if stages != [] {
      LeadingActiveCount(stages[1..], if k == 0 then 0 else k - 1);
    }
  }

  /** A bank obeying the tier rule has exactly tier + 1 enabled slots. */
  lemma TierActiveCount<C>(bank: seq<Stage<C>>, slope: Slope)
    requires TierActive(bank, slope)
    ensures ActiveCount(bank) == Ordinal(slope) + 1
  {
    LeadingActiveCount(bank, Ordinal(slope) + 1);
  }

  /** Applying the same update twice gives the same bank as applying it once. */
  lemma CutFilterIdempotent<C>(bank: seq<Stage<C>>, cs: seq<C>, slope: Slope)
    requires |bank| == BankSize && |cs| > Ordinal(slope)
    ensures CutFilterUpdated(CutFilterUpdated(bank, cs, slope), cs, slope) == CutFilterUpdated(bank, cs, slope)
  {
    var once := CutFilterUpdated(bank, cs, slope);
    CutFilterSlots(bank, cs, slope);
    CutFilterSlots(once, cs, slope);
  }

  /** Switching from 48 to 12 dB/oct leaves slot 0 alone enabled, whatever the bank held. */
  lemma SwitchSteepestToGentlest<C>(bank: seq<Stage<C>>, steep: seq<C>, gentle: seq<C>)
    requires |bank| == BankSize && |steep| == BankSize && |gentle| >= 1
    ensures var after := CutFilterUpdated(CutFilterUpdated(bank, steep, Slope48), gentle, Slope12);
      !after[0].bypassed && after[1].bypassed && after[2].bypassed && after[3].bypassed
      && after[0].coefficients == gentle[0]
  {
    var mid := CutFilterUpdated(bank, steep, Slope48);
    CutFilterSlots(mid, gentle, Slope12);
  }

  /** update<Index>: copy section k into slot k, then enable the slot. */
  method Update<C>(bank: array<Stage<C>>, cs: seq<C>, k: nat)
    requires k < bank.Length && k < |cs|
    modifies bank
    ensures bank[..] == ActivateSlot(old(bank[..]), cs, k)
  {
    bank[k] := ReplaceCoefficients(bank[k], cs[k]);
    bank[k] := bank[k].(bypassed := false);
  }

  /**
   * updateCutFilter: bypass all four slots, then enter the switch at the
   * selected tier and fall through to Slope_12, enabling tier..0.
   */
  method UpdateCutFilter<C>(bank: array<Stage<C>>, cs: seq<C>, slope: Slope)
    requires bank.Length == BankSize && |cs| > Ordinal(slope)
    modifies bank
    ensures bank[..] == CutFilterUpdated(old(bank[..]), cs, slope)
    ensures TierActive(bank[..], slope)
  {
    bank[0] := bank[0].(bypassed := true);
    bank[1] := bank[1].(bypassed := true);
    bank[2] := bank[2].(bypassed := true);
    bank[3] := bank[3].(bypassed := true);
    assert bank[..] == BypassAll(old(bank[..]));
    var t := Ordinal(slope);
    if t >= 3 { Update(bank, cs, 3); }  // case Slope_48
    if t >= 2 { Update(bank, cs, 2); }  // case Slope_36
    if t >= 1 { Update(bank, cs, 1); }  // case Slope_24
    Update(bank, cs, 0);                // case Slope_12
    CutFilterTierActive(old(bank[..]), cs, slope);
  }

  // ---------------------------------------------------------------------------
  // Whole-chain update

  /** The chain after the three position updates for settings `s`. */
  function ChainUpdated<C>(v: Chain<C>, s: ChainSettings, sampleRate: real, d: Designer<C>): (r: Chain<C>)
    requires WellFormed(v) && DesignCovers(d, s, sampleRate)
    ensures WellFormed(r)
  {
    Chain(CutFilterUpdated(v.lowCut, LowCutCoefficients(d, s, sampleRate), s.lowCutSlope),
          ReplaceCoefficients(v.peak, MakePeakFilter(d, s, sampleRate)),
          CutFilterUpdated(v.highCut, HighCutCoefficients(d, s, sampleRate), s.highCutSlope))
  }

  /** Both cut banks of a chain obey the tier rule for the settings' slopes. */
  predicate MatchesSettings<C>(v: Chain<C>, s: ChainSettings)
  {
    TierActive(v.lowCut, s.lowCutSlope) && TierActive(v.highCut, s.highCutSlope)
  }

  /**
   * After an update the chain holds the designed sections in its enabled slots,
   * the peak design in the peak stage, and obeys the tier rule in both banks.
   */
  lemma ChainUpdatedMeetsSettings<C>(v: Chain<C>, s: ChainSettings, sampleRate: real, d: Designer<C>)
    requires WellFormed(v) && DesignCovers(d, s, sampleRate)
    ensures var r := ChainUpdated(v, s, sampleRate, d);
      && MatchesSettings(r, s)
      && r.peak == Stage(MakePeakFilter(d, s, sampleRate), v.peak.bypassed)
      && (forall i :: 0 <= i <= Ordinal(s.lowCutSlope) ==> r.lowCut[i].coefficients == LowCutCoefficients(d, s, sampleRate)[i])
      && (forall i :: 0 <= i <= Ordinal(s.highCutSlope) ==> r.highCut[i].coefficients == HighCutCoefficients(d, s, sampleRate)[i])
  {
    CutFilterSlots(v.lowCut, LowCutCoefficients(d, s, sampleRate), s.lowCutSlope);
    CutFilterSlots(v.highCut, HighCutCoefficients(d, s, sampleRate), s.highCutSlope);
  }

  /** Refreshing twice with an unchanged snapshot gives the same chain as refreshing once. */
  lemma ChainUpdatedIdempotent<C>(v: Chain<C>, s: ChainSettings, sampleRate: real, d: Designer<C>)
    requires WellFormed(v) && DesignCovers(d, s, sampleRate)
    ensures ChainUpdated(ChainUpdated(v, s, sampleRate, d), s, sampleRate, d) == ChainUpdated(v, s, sampleRate, d)
  {
    CutFilterIdempotent(v.lowCut, LowCutCoefficients(d, s, sampleRate), s.lowCutSlope);
    CutFilterIdempotent(v.highCut, HighCutCoefficients(d, s, sampleRate), s.highCutSlope);
  }

  // ---------------------------------------------------------------------------
  // The processor

  /** The audio processor: one chain per stereo channel, kept in lock-step. */
  class FilterPluginAudioProcessor<C> {
    const leftChain: MonoChain<C>
    const rightChain: MonoChain<C>

    ghost function Repr(): set<object>
    {
      {leftChain, rightChain, leftChain.lowCut, leftChain.highCut, rightChain.lowCut, rightChain.highCut}
    }

    /**
     * Two distinct chains owning four distinct banks, and both chains holding
     * the same value (same coefficients and bypass flags everywhere).
     */
    ghost predicate Valid()
      reads Repr()
    {
      && leftChain.Valid() && rightChain.Valid()
      && leftChain != rightChain
      && leftChain.lowCut != rightChain.lowCut && leftChain.lowCut != rightChain.highCut
      && leftChain.highCut != rightChain.lowCut && leftChain.highCut != rightChain.highCut
      && leftChain.View() == rightChain.View()
    }

    constructor (init: C)
      ensures Valid() && fresh(Repr())
      ensures leftChain.View() == DefaultChain(init)
    {
      leftChain := new MonoChain(init);
      rightChain := new MonoChain(init);
    }

    /** updateLowCutFilters: design once, apply to the low-cut bank of both chains. */
    method UpdateLowCutFilters(s: ChainSettings, sampleRate: real, d: Designer<C>)
      requires Valid() && |LowCutCoefficients(d, s, sampleRate)| > Ordinal(s.lowCutSlope)
      modifies leftChain.lowCut, rightChain.lowCut
      ensures Valid()
      ensures leftChain.View() == old(leftChain.View()).(lowCut :=
        CutFilterUpdated(old(leftChain.lowCut[..]), LowCutCoefficients(d, s, sampleRate), s.lowCutSlope))
    {
      var lowCutCoefficients := LowCutCoefficients(d, s, sampleRate);
      UpdateCutFilter(leftChain.lowCut, lowCutCoefficients, s.lowCutSlope);
      UpdateCutFilter(rightChain.lowCut, lowCutCoefficients, s.lowCutSlope);
    }

    /** updateHighCutFilters: design once, apply to the high-cut bank of both chains. */
    method UpdateHighCutFilters(s: ChainSettings, sampleRate: real, d: Designer<C>)
      requires Valid() && |HighCutCoefficients(d, s, sampleRate)| > Ordinal(s.highCutSlope)
      modifies leftChain.highCut, rightChain.highCut
      ensures Valid()
      ensures leftChain.View() == old(leftChain.View()).(highCut :=
        CutFilterUpdated(old(leftChain.highCut[..]), HighCutCoefficients(d, s, sampleRate), s.highCutSlope))
    {
      var highCutCoefficients := HighCutCoefficients(d, s, sampleRate);
      UpdateCutFilter(leftChain.highCut, highCutCoefficients, s.highCutSlope);
      UpdateCutFilter(rightChain.highCut, highCutCoefficients, s.highCutSlope);
    }

    /** updatePeakFilter: only the peak stage's coefficients change, in both chains. */
    method UpdatePeakFilter(s: ChainSettings, sampleRate: real, d: Designer<C>)
      requires Valid()
      modifies leftChain, rightChain
      ensures Valid()
      ensures leftChain.View() == old(leftChain.View()).(peak :=
        ReplaceCoefficients(old(leftChain.peak), MakePeakFilter(d, s, sampleRate)))
    {
      var peakCoefficients := MakePeakFilter(d, s, sampleRate);
      leftChain.peak := ReplaceCoefficients(leftChain.peak, peakCoefficients);
      rightChain.peak := ReplaceCoefficients(rightChain.peak, peakCoefficients);
    }

    /**
     * updateFilters: take one settings snapshot, then update low cut, high cut
     * and peak. Both chains end up equal to the refreshed value of the old chain.
     */
    method UpdateFilters(p: ParameterValues, sampleRate: real, d: Designer<C>)
      requires Valid() && ValidParameters(p) && DesignCovers(d, GetChainSettings(p), sampleRate)
      modifies Repr()
      ensures Valid()
      ensures leftChain.View() == ChainUpdated(old(leftChain.View()), GetChainSettings(p), sampleRate, d)
      ensures rightChain.View() == leftChain.View()
      ensures MatchesSettings(leftChain.View(), GetChainSettings(p))
    {
      var chainSettings := GetChainSettings(p);
      ghost var before := leftChain.View();
      UpdateLowCutFilters(chainSettings, sampleRate, d);
      UpdateHighCutFilters(chainSettings, sampleRate, d);
      UpdatePeakFilter(chainSettings, sampleRate, d);
      ChainUpdatedMeetsSettings(before, chainSettings, sampleRate, d);
    }
  }

  // ---------------------------------------------------------------------------
  // The slope choice labels of createParameterLayout

  function DigitChar(d: nat): char
    requires d < 10
  {
    "0123456789"[d]
  }

  /** Decimal text of a natural number, as `juce::String << int` writes it. */
  function NatToString(n: nat): (s: string)
    ensures |s| >= 1
    ensures forall i :: 0 <= i < |s| ==> s[i] in "0123456789"
    decreases n
  {
    if n < 10 then [DigitChar(n)] else NatToString(n / 10) + [DigitChar(n % 10)]
  }

  function DigitValue(c: char): nat
  {
    if '0' <= c <= '9' then (c as int - '0' as int) as nat else 0
  }

  /** Reads a decimal text back as a number. */
  function ParseNat(s: string): nat
  {
    if s == [] then 0 else ParseNat(s[..|s| - 1]) * 10 + DigitValue(s[|s| - 1])
  }

  /** The decimal text of a number reads back as that number. */
  lemma {:induction false} NatToStringRoundTrip(n: nat)
    ensures ParseNat(NatToString(n)) == n
    decreases n
  {
    if n >= 10 {
      NatToStringRoundTrip(n / 10);
      var s := NatToString(n);
      assert s[..|s| - 1] == NatToString(n / 10);
    }
  }

  /** The text of a slope choice: its steepness in dB per octave. */
  function SlopeLabel(dbPerOctave: nat): string
  {
    NatToString(dbPerOctave) + " db/Oct"
  }

  /** The four labels the loop writes, evaluated. */
  lemma SlopeLabelTexts()
    ensures SlopeLabel(12) == "12 db/Oct" && SlopeLabel(24) == "24 db/Oct"
    ensures SlopeLabel(36) == "36 db/Oct" && SlopeLabel(48) == "48 db/Oct"
  {
    assert NatToString(12) == "12" && NatToString(24) == "24";
    assert NatToString(36) == "36" && NatToString(48) == "48";
  }

  /** The label loop: choice i reads (12 + 12 i) db/Oct, for i = 0..3. */
  method SlopeChoiceLabels() returns (labels: seq<string>)
    ensures |labels| == BankSize
    ensures forall i :: 0 <= i < BankSize ==> labels[i] == SlopeLabel(12 + i * 12)
    ensures labels == ["12 db/Oct", "24 db/Oct", "36 db/Oct", "48 db/Oct"]
  {
    labels := [];
    for i := 0 to 4
      invariant |labels| == i
      invariant forall j :: 0 <= j < i ==> labels[j] == SlopeLabel(12 + j * 12)
    {
      var str := NatToString(12 + i * 12);
      str := str + " db/Oct";
      labels := labels + [str];
    }
    SlopeLabelTexts();
    assert labels == [labels[0], labels[1], labels[2], labels[3]];
  }

  /** The label at a tier's choice index states six dB per octave for each order of its design. */
  lemma SlopeLabelMatchesOrder(s: Slope)
    ensures 12 + Ordinal(s) * 12 == 6 * CutOrder(s)
    ensures SlopeLabel(12 + Ordinal(s) * 12) == SlopeLabel(6 * CutOrder(s))
  {
  }
}
