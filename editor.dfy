/*
 * The editor's share of the engine: the response-curve component, which keeps
 * its own mono chain, refreshes it by the processor's rules when a parameter
 * change has marked it dirty, and samples its magnitude response as the
 * product of the magnitudes of the enabled stages only; and the text of a
 * rotary slider's label.
 *
 * The per-stage magnitude, the log-frequency mapping, the dB conversion and
 * number formatting are JUCE floating-point code; they are parameters here.
 */
module Editor {
  import opened ChainTypes
  import opened Processor

  /**
   * The foreign numerics of the curve: `magnitude` (coefficients, frequency,
   * sample rate), `mapToLog10` (proportion, low, high) and `gainToDecibels`.
   */
  datatype Numerics<!C> = Numerics(
    magnitude: (C, real, real) -> real,
    mapToLog10: (real, real, real) -> real,
    gainToDecibels: real -> real)

  // ---------------------------------------------------------------------------
  // Magnitude of a chain

  /** The coefficient sets of the enabled stages, in order. */
  function ActiveCoefficients<C>(stages: seq<Stage<C>>): (cs: seq<C>)
    ensures |cs| == ActiveCount(stages) <= |stages|
  {
    if stages == [] then []
    else (if stages[0].bypassed then [] else [stages[0].coefficients]) + ActiveCoefficients(stages[1..])
  }

  /** The product of the magnitudes of some coefficient sets at one frequency. */
  function Product<C>(cs: seq<C>, n: Numerics<C>, freq: real, sampleRate: real): real
  {
    if cs == [] then 1.0 else n.magnitude(cs[0], freq, sampleRate) * Product(cs[1..], n, freq, sampleRate)
  }

  /**
   * The stages in the order the curve visits them: the peak stage, the low-cut
   * bank, the high-cut bank. Real magnitudes multiply commutatively, so this
   * order and the processing order give the same response.
   */
  function PaintOrder<C>(v: Chain<C>): seq<Stage<C>>
  {
    [v.peak] + v.lowCut + v.highCut
  }

  /** The paint order visits every stage of the chain exactly as often as the processing order does. */
  lemma PaintOrderIsPermutation<C>(v: Chain<C>)
    ensures multiset(PaintOrder(v)) == multiset(Stages(v))
  {
  }

  /** The magnitude of a chain: the product over its enabled stages, and over nothing else. */
  function ChainMagnitude<C>(v: Chain<C>, n: Numerics<C>, freq: real, sampleRate: real): real
  {
    Product(ActiveCoefficients(PaintOrder(v)), n, freq, sampleRate)
  }

  /** What one stage multiplies the running magnitude by in the paint loop. */
  function StageFactor<C>(s: Stage<C>, n: Numerics<C>, freq: real, sampleRate: real): real
  {
    if s.bypassed then 1.0 else n.magnitude(s.coefficients, freq, sampleRate)
  }

  lemma {:induction false} ActiveCoefficientsConcat<C>(a: seq<Stage<C>>, b: seq<Stage<C>>)
    ensures ActiveCoefficients(a + b) == ActiveCoefficients(a) + ActiveCoefficients(b)
  {
    if a != [] {
      assert (a + b)[0] == a[0];
      assert (a + b)[1..] == a[1..] + b;
      ActiveCoefficientsConcat(a[1..], b);
      var head := if a[0].bypassed then [] else [a[0].coefficients];
      assert ActiveCoefficients(a + b) == head + ActiveCoefficients(a[1..] + b);
      assert ActiveCoefficients(a) == head + ActiveCoefficients(a[1..]);
    } else {
      assert a + b == b;
    }
  }

  lemma {:induction false} ProductConcat<C>(a: seq<C>, b: seq<C>, n: Numerics<C>, freq: real, sampleRate: real)
    ensures Product(a + b, n, freq, sampleRate) == Product(a, n, freq, sampleRate) * Product(b, n, freq, sampleRate)
  {
    if a != [] {
      assert (a + b)[0] == a[0];
      assert (a + b)[1..] == a[1..] + b;
      ProductConcat(a[1..], b, n, freq, sampleRate);
    } else {
      assert a + b == b;
    }
  }

  /** Three factors multiplied as two: (m * l) * h, with m given in two equal forms. */
  lemma ThreeFactors(r: real, ml: real, h: real, m: real, l: real, m': real)
    requires r == ml * h && ml == m * l && m == m'
    ensures r == m' * l * h
  {
  }

  /** The magnitude of a chain splits into its peak stage, low-cut bank and high-cut bank. */
  lemma ChainMagnitudeByPosition<C>(v: Chain<C>, n: Numerics<C>, freq: real, sampleRate: real)
    ensures ChainMagnitude(v, n, freq, sampleRate) ==
      StageFactor(v.peak, n, freq, sampleRate)
      * Product(ActiveCoefficients(v.lowCut), n, freq, sampleRate)
      * Product(ActiveCoefficients(v.highCut), n, freq, sampleRate)
  {
    var low, mid, high := ActiveCoefficients(v.lowCut), ActiveCoefficients([v.peak]), ActiveCoefficients(v.highCut);
    assert ActiveCoefficients(PaintOrder(v)) == mid + low + high by {
      ActiveCoefficientsConcat([v.peak], v.lowCut);
      ActiveCoefficientsConcat([v.peak] + v.lowCut, v.highCut);
    }
    ProductConcat(mid, low, n, freq, sampleRate);
    ProductConcat(mid + low, high, n, freq, sampleRate);
    SingleStageProduct(v.peak, n, freq, sampleRate);
    ThreeFactors(ChainMagnitude(v, n, freq, sampleRate), Product(mid + low, n, freq, sampleRate),
                 Product(high, n, freq, sampleRate), Product(mid, n, freq, sampleRate),
                 Product(low, n, freq, sampleRate), StageFactor(v.peak, n, freq, sampleRate));
  }

  /** A chain whose every stage is bypassed has magnitude 1 at every frequency. */
  lemma AllBypassedIsUnity<C>(v: Chain<C>, n: Numerics<C>, freq: real, sampleRate: real)
    requires forall s :: s in Stages(v) ==> s.bypassed
    ensures ChainMagnitude(v, n, freq, sampleRate) == 1.0
  {
    PaintOrderIsPermutation(v);
    forall s | s in PaintOrder(v)
      ensures s.bypassed
    {
      assert s in multiset(PaintOrder(v));
    }
    NoActiveCoefficients(PaintOrder(v));
  }

  lemma {:induction false} NoActiveCoefficients<C>(stages: seq<Stage<C>>)
    requires forall s :: s in stages ==> s.bypassed
    ensures ActiveCoefficients(stages) == []
  {
    if stages != [] {
      assert stages[0] in stages;
      NoActiveCoefficients(stages[1..]);
    }
  }

  /** A single stage's enabled coefficients multiply to its paint-loop factor. */
  lemma SingleStageProduct<C>(s: Stage<C>, n: Numerics<C>, freq: real, sampleRate: real)
    ensures Product(ActiveCoefficients([s]), n, freq, sampleRate) == StageFactor(s, n, freq, sampleRate)
  {
    assert [s][1..] == [];
    if !s.bypassed {
      assert ActiveCoefficients([s]) == [s.coefficients];
      assert [s.coefficients][1..] == [];
    }
  }

  /**
   * The paint loop's running product: starting from `acc`, multiply by the
   * magnitude of each enabled stage in turn, from left to right.
   */
  function RunningMagnitude<C>(stages: seq<Stage<C>>, n: Numerics<C>, freq: real, sampleRate: real, acc: real): real
  {
    if stages == [] then acc
    else RunningMagnitude(stages[1..], n, freq, sampleRate, Scaled(acc, stages[0], n, freq, sampleRate))
  }

  /** One conditional multiplication of the paint loop. */
  function Scaled<C>(acc: real, s: Stage<C>, n: Numerics<C>, freq: real, sampleRate: real): real
  {
    if s.bypassed then acc else acc * n.magnitude(s.coefficients, freq, sampleRate)
  }

  /** Scaling the accumulator first and the rest of the product after is scaling by the whole product. */
  lemma ScaleStep(r: real, acc': real, acc: real, m: real, p: real, q: real)
    requires r == acc' * p && acc' == acc * m && q == m * p
    ensures r == acc * q
  {
  }

  /** Multiplying left to right and skipping bypassed stages gives the product over the enabled stages. */
  lemma {:induction false} RunningMagnitudeIsProduct<C>(stages: seq<Stage<C>>, n: Numerics<C>, freq: real,
                                                       sampleRate: real, acc: real)
    ensures RunningMagnitude(stages, n, freq, sampleRate, acc) ==
            acc * Product(ActiveCoefficients(stages), n, freq, sampleRate)
  {
    if stages != [] {
      var acc' := Scaled(acc, stages[0], n, freq, sampleRate);
      var rest := ActiveCoefficients(stages[1..]);
      RunningMagnitudeIsProduct(stages[1..], n, freq, sampleRate, acc');
      if stages[0].bypassed {
        assert ActiveCoefficients(stages) == rest by {
          assert [] + rest == rest;
        }
      } else {
        var m := n.magnitude(stages[0].coefficients, freq, sampleRate);
        var cs := [stages[0].coefficients] + rest;
        assert ActiveCoefficients(stages) == cs;
        assert cs[0] == stages[0].coefficients && cs[1..] == rest;
        ScaleStep(RunningMagnitude(stages, n, freq, sampleRate, acc), acc', acc, m,
                  Product(rest, n, freq, sampleRate), Product(cs, n, freq, sampleRate));
      }
    }
  }

  lemma {:induction false} ActiveOfLeading<C>(stages: seq<Stage<C>>, cs: seq<C>, k: nat)
    requires k <= |stages| && k <= |cs|
    requires forall i :: 0 <= i < |stages| ==>
      (i < k ==> stages[i] == Stage(cs[i], false)) && (k <= i ==> stages[i].bypassed)
    ensures ActiveCoefficients(stages) == cs[..k]
  {
    if stages != [] {
      if k > 0 {
        ActiveOfLeading(stages[1..], cs[1..], k - 1);
        assert cs[..k] == [cs[0]] + cs[1..][..k - 1];
      } else {
        ActiveOfLeading(stages[1..], cs, 0);
      }
    }
  }

  /** The enabled stages of an updated bank are exactly the first tier + 1 designed sections, in order. */
  lemma CutFilterActiveSections<C>(bank: seq<Stage<C>>, cs: seq<C>, slope: Slope)
    requires |bank| == BankSize && |cs| > Ordinal(slope)
    ensures ActiveCoefficients(CutFilterUpdated(bank, cs, slope)) == cs[..Ordinal(slope) + 1]
  {
    CutFilterSlots(bank, cs, slope);
    ActiveOfLeading(CutFilterUpdated(bank, cs, slope), cs, Ordinal(slope) + 1);
  }

  /**
   * The response of a refreshed chain depends only on the settings and on the
   * peak stage's bypass flag: low-cut sections 0..tier, the peak design, high-cut
   * sections 0..tier. Stale coefficients in bypassed slots never show.
   */
  lemma RefreshedMagnitude<C>(v: Chain<C>, s: ChainSettings, sampleRate: real, d: Designer<C>,
                              n: Numerics<C>, freq: real)
    requires WellFormed(v) && DesignCovers(d, s, sampleRate)
    ensures ChainMagnitude(ChainUpdated(v, s, sampleRate, d), n, freq, sampleRate) ==
      (if v.peak.bypassed then 1.0 else n.magnitude(MakePeakFilter(d, s, sampleRate), freq, sampleRate))
      * Product(LowCutCoefficients(d, s, sampleRate)[..Ordinal(s.lowCutSlope) + 1], n, freq, sampleRate)
      * Product(HighCutCoefficients(d, s, sampleRate)[..Ordinal(s.highCutSlope) + 1], n, freq, sampleRate)
  {
    var r := ChainUpdated(v, s, sampleRate, d);
    ChainMagnitudeByPosition(r, n, freq, sampleRate);
    CutFilterActiveSections(v.lowCut, LowCutCoefficients(d, s, sampleRate), s.lowCutSlope);
    CutFilterActiveSections(v.highCut, HighCutCoefficients(d, s, sampleRate), s.highCutSlope);
  }

  /**
   * Audio path and curve agree: two chains refreshed from the same settings have
   * the same magnitude at every frequency, whatever either held before.
   */
  lemma RefreshedChainsAgree<C>(v: Chain<C>, w: Chain<C>, s: ChainSettings, sampleRate: real,
                                d: Designer<C>, n: Numerics<C>, freq: real)
    requires WellFormed(v) && WellFormed(w) && DesignCovers(d, s, sampleRate)
    requires v.peak.bypassed == w.peak.bypassed
    ensures ChainMagnitude(ChainUpdated(v, s, sampleRate, d), n, freq, sampleRate)
         == ChainMagnitude(ChainUpdated(w, s, sampleRate, d), n, freq, sampleRate)
  {
    RefreshedMagnitude(v, s, sampleRate, d, n, freq);
    RefreshedMagnitude(w, s, sampleRate, d, n, freq);
  }

  /** Column i of a w-column curve sits at proportion i / w of the log axis from 20 Hz to 20 kHz. */
  function ColumnFrequency<C>(n: Numerics<C>, i: nat, w: nat): real
    requires i < w
  {
    n.mapToLog10(i as real / w as real, 20.0, 20000.0)
  }

  // ---------------------------------------------------------------------------
  // The response-curve component

  class ResponsiveCurve<C> {
    var parametersChanged: bool
    const monoChain: MonoChain<C>

    ghost predicate Valid()
    {
      monoChain.Valid()
    }

    /** The constructor as written: listeners registered, timer started, dirty flag left false. */
    constructor (init: C)
      ensures Valid() && fresh(monoChain) && fresh(monoChain.lowCut) && fresh(monoChain.highCut)
      ensures !parametersChanged && monoChain.View() == DefaultChain(init)
    {
      parametersChanged := false;
      monoChain := new MonoChain(init);
    }

    /** The corrected constructor: the chain starts dirty, so the first tick shows the current settings. */
    constructor Corrected(init: C)
      ensures Valid() && fresh(monoChain) && fresh(monoChain.lowCut) && fresh(monoChain.highCut)
      ensures parametersChanged && monoChain.View() == DefaultChain(init)
    {
      parametersChanged := true;
      monoChain := new MonoChain(init);
    }

    /** parameterValueChanged: any change of any parameter marks the curve dirty. */
    method ParameterValueChanged(parameterIndex: int, newValue: real)
      modifies this
      ensures parametersChanged
    {
      parametersChanged := true;
    }

    /**
     * timerCallback: if the flag was set, clear it, refresh the chain by the
     * processor's rules (peak, then low cut, then high cut) and repaint;
     * otherwise do nothing.
     */
    method TimerCallback(p: ParameterValues, sampleRate: real, d: Designer<C>) returns (repainted: bool)
      requires Valid()
      requires parametersChanged ==> ValidParameters(p) && DesignCovers(d, GetChainSettings(p), sampleRate)
      modifies this, monoChain, monoChain.lowCut, monoChain.highCut
      ensures Valid() && !parametersChanged
      ensures repainted == old(parametersChanged)
      ensures monoChain.View() ==
        if old(parametersChanged) then ChainUpdated(old(monoChain.View()), GetChainSettings(p), sampleRate, d)
        else old(monoChain.View())
      ensures repainted ==> MatchesSettings(monoChain.View(), GetChainSettings(p))
    {
      repainted := false;
      if parametersChanged {
        parametersChanged := false;
        var chainSettings := GetChainSettings(p);
        ghost var before := monoChain.View();
        var peakCoefficients := MakePeakFilter(d, chainSettings, sampleRate);
        monoChain.peak := ReplaceCoefficients(monoChain.peak, peakCoefficients);
        var lowCutCoefficients := LowCutCoefficients(d, chainSettings, sampleRate);
        var highCutCoefficients := HighCutCoefficients(d, chainSettings, sampleRate);
        UpdateCutFilter(monoChain.lowCut, lowCutCoefficients, chainSettings.lowCutSlope);
        UpdateCutFilter(monoChain.highCut, highCutCoefficients, chainSettings.highCutSlope);
        ChainUpdatedMeetsSettings(before, chainSettings, sampleRate, d);
        repainted := true;
      }
    }

    /** One line of the paint loop: multiply by the stage's magnitude unless the stage is bypassed. */
    static method ApplyStage(mag: real, stage: Stage<C>, n: Numerics<C>, freq: real, sampleRate: real) returns (r: real)
      ensures r == Scaled(mag, stage, n, freq, sampleRate)
      ensures stage.bypassed ==> r == mag
    {
      r := mag;
      if !stage.bypassed { r := r * n.magnitude(stage.coefficients, freq, sampleRate); }
    }

    /**
     * The magnitude loop of paint: one entry per column 0..w-1, each the dB value
     * of the product of the enabled stages' magnitudes at that column's frequency.
     */
    method ResponseMagnitudes(w: nat, sampleRate: real, n: Numerics<C>) returns (mags: seq<real>)
      requires Valid()
      ensures |mags| == w
      ensures forall i :: 0 <= i < w ==>
        mags[i] == n.gainToDecibels(ChainMagnitude(monoChain.View(), n, ColumnFrequency(n, i, w), sampleRate))
    {
      var lowCut, peak, highCut := monoChain.lowCut, monoChain.peak, monoChain.highCut;
      ghost var v := monoChain.View();
      ghost var order := PaintOrder(v);
      mags := seq(w, _ => 0.0);
      for i := 0 to w
        invariant |mags| == w
        invariant forall j :: 0 <= j < i ==>
          mags[j] == n.gainToDecibels(ChainMagnitude(v, n, ColumnFrequency(n, j, w), sampleRate))
      {
        var mag := 1.0;
        var freq := n.mapToLog10(i as real / w as real, 20.0, 20000.0);
        // after the k-th stage, what is left to multiply is order[k..]
        ghost var target := RunningMagnitude(order, n, freq, sampleRate, 1.0);
        assert order[0] == peak;
        assert order[1] == lowCut[0] && order[2] == lowCut[1] && order[3] == lowCut[2] && order[4] == lowCut[3];
        assert order[5] == highCut[0] && order[6] == highCut[1] && order[7] == highCut[2] && order[8] == highCut[3];

        mag := ApplyStage(mag, peak, n, freq, sampleRate);
        assert RunningMagnitude(order[1..], n, freq, sampleRate, mag) == target by {
          assert order[0..][0] == order[0] && order[0..][1..] == order[1..];
        }

        mag := ApplyStage(mag, lowCut[0], n, freq, sampleRate);
        assert RunningMagnitude(order[2..], n, freq, sampleRate, mag) == target by {
          assert order[1..][0] == order[1] && order[1..][1..] == order[2..];
        }
        mag := ApplyStage(mag, lowCut[1], n, freq, sampleRate);
        assert RunningMagnitude(order[3..], n, freq, sampleRate, mag) == target by {
          assert order[2..][0] == order[2] && order[2..][1..] == order[3..];
        }
        mag := ApplyStage(mag, lowCut[2], n, freq, sampleRate);
        assert RunningMagnitude(order[4..], n, freq, sampleRate, mag) == target by {
          assert order[3..][0] == order[3] && order[3..][1..] == order[4..];
        }
        mag := ApplyStage(mag, lowCut[3], n, freq, sampleRate);
        assert RunningMagnitude(order[5..], n, freq, sampleRate, mag) == target by {
          assert order[4..][0] == order[4] && order[4..][1..] == order[5..];
        }

        mag := ApplyStage(mag, highCut[0], n, freq, sampleRate);
        assert RunningMagnitude(order[6..], n, freq, sampleRate, mag) == target by {
          assert order[5..][0] == order[5] && order[5..][1..] == order[6..];
        }
        mag := ApplyStage(mag, highCut[1], n, freq, sampleRate);
        assert RunningMagnitude(order[7..], n, freq, sampleRate, mag) == target by {
          assert order[6..][0] == order[6] && order[6..][1..] == order[7..];
        }
        mag := ApplyStage(mag, highCut[2], n, freq, sampleRate);
        assert RunningMagnitude(order[8..], n, freq, sampleRate, mag) == target by {
          assert order[7..][0] == order[7] && order[7..][1..] == order[8..];
        }
        mag := ApplyStage(mag, highCut[3], n, freq, sampleRate);
        assert RunningMagnitude(order[9..], n, freq, sampleRate, mag) == target by {
          assert order[8..][0] == order[8] && order[8..][1..] == order[9..];
        }

        assert order[9..] == [];
        RunningMagnitudeIsProduct(order, n, freq, sampleRate, 1.0);
        mags := mags[i := n.gainToDecibels(mag)];
      }
    }
  }

  // ---------------------------------------------------------------------------
  // Opening the editor: the first refresh of the curve

  /** A freshly constructed chain obeys the tier rule only for the 48 dB/oct tier in both banks. */
  lemma DefaultChainMatchesOnlySteepest<C>(init: C, s: ChainSettings)
    ensures MatchesSettings(DefaultChain(init), s) <==> s.lowCutSlope == Slope48 && s.highCutSlope == Slope48
  {
    var v := DefaultChain(init);
    if MatchesSettings(v, s) {
      assert !v.lowCut[3].bypassed && !v.highCut[3].bypassed;
    }
  }

  /**
   * As written: the editor opens, the timer ticks before any parameter has
   * changed, and the curve keeps the default chain. Every stage still holds the
   * initial coefficients, whatever the settings; for any slope but 48 dB/oct
   * it also shows stages the audio path does not run.
   */
  method OpenEditorAsWritten<C>(init: C, p: ParameterValues, sampleRate: real, d: Designer<C>)
    returns (repainted: bool, shown: Chain<C>)
    requires ValidParameters(p) && DesignCovers(d, GetChainSettings(p), sampleRate)
    ensures !repainted && shown == DefaultChain(init)
    ensures MatchesSettings(shown, GetChainSettings(p)) <==>
      GetChainSettings(p).lowCutSlope == Slope48 && GetChainSettings(p).highCutSlope == Slope48
    ensures MakePeakFilter(d, GetChainSettings(p), sampleRate) != init ==>
      shown != ChainUpdated(DefaultChain(init), GetChainSettings(p), sampleRate, d)
  {
    var curve := new ResponsiveCurve<C>(init);
    repainted := curve.TimerCallback(p, sampleRate, d);
    shown := curve.monoChain.View();
    DefaultChainMatchesOnlySteepest(init, GetChainSettings(p));
  }

  /** Corrected: the first tick refreshes the curve, which then obeys the tier rule of the settings. */
  method OpenEditor<C>(init: C, p: ParameterValues, sampleRate: real, d: Designer<C>)
    returns (repainted: bool, shown: Chain<C>)
    requires ValidParameters(p) && DesignCovers(d, GetChainSettings(p), sampleRate)
    ensures repainted && shown == ChainUpdated(DefaultChain(init), GetChainSettings(p), sampleRate, d)
    ensures MatchesSettings(shown, GetChainSettings(p))
  {
    var curve := new ResponsiveCurve<C>.Corrected(init);
    repainted := curve.TimerCallback(p, sampleRate, d);
    shown := curve.monoChain.View();
  }

  /**
   * As written: after a parameter change, a second tick with no change in
   * between neither repaints nor changes the curve, whatever the registry
   * holds by then.
   */
  method SecondTickIsIdle<C>(init: C, p: ParameterValues, q: ParameterValues, index: int, value: real,
                             sampleRate: real, d: Designer<C>)
    returns (repainted: bool, shown: Chain<C>)
    requires ValidParameters(p) && DesignCovers(d, GetChainSettings(p), sampleRate)
    ensures !repainted && shown == ChainUpdated(DefaultChain(init), GetChainSettings(p), sampleRate, d)
  {
    var curve := new ResponsiveCurve<C>(init);
    curve.ParameterValueChanged(index, value);
    var first := curve.TimerCallback(p, sampleRate, d);
    repainted := curve.TimerCallback(q, sampleRate, d);
    shown := curve.monoChain.View();
  }

  /** As written, the curve follows the settings only from the first tick after a parameter change. */
  method ChangeThenTick<C>(init: C, p: ParameterValues, index: int, value: real, sampleRate: real, d: Designer<C>)
    returns (repainted: bool, shown: Chain<C>)
    requires ValidParameters(p) && DesignCovers(d, GetChainSettings(p), sampleRate)
    ensures repainted && shown == ChainUpdated(DefaultChain(init), GetChainSettings(p), sampleRate, d)
    ensures MatchesSettings(shown, GetChainSettings(p))
  {
    var curve := new ResponsiveCurve<C>(init);
    curve.ParameterValueChanged(index, value);
    repainted := curve.TimerCallback(p, sampleRate, d);
    shown := curve.monoChain.View();
  }

  // ---------------------------------------------------------------------------
  // Slider label text

  /** The kind of parameter a slider is attached to; a choice knows its names and current index. */
  datatype ParameterKind = ChoiceParameter(choiceNames: seq<string>, index: nat) | FloatParameter | OtherParameter

  /**
   * getDisplayString: a choice shows its current name; a float above 999 is shown
   * in thousands with two decimals, otherwise with decimal-places argument 0
   * (JUCE's default format); a non-empty suffix is appended after a space, with
   * "k" in front of it for thousands. A slider of any other parameter kind gets
   * no number, as the release build of the assertion branch gives.
   * `format(x, decimals)` is `juce::String(x, decimals)`.
   */
  function DisplayString(param: ParameterKind, value: real, suffix: string,
                         format: (real, nat) -> string): string
    requires param.ChoiceParameter? ==> param.index < |param.choiceNames|
  {
    if param.ChoiceParameter? then param.choiceNames[param.index]
    else
      var addK := param.FloatParameter? && value > 999.0;
      var str := if param.FloatParameter? then format(if addK then value / 1000.0 else value, if addK then 2 else 0)
                 else "";
      if suffix != "" then str + " " + (if addK then "k" else "") + suffix else str
  }

  /** A choice parameter shows exactly its current choice name, whatever the suffix. */
  lemma ChoiceLabelIsName(names: seq<string>, index: nat, value: real, suffix: string, format: (real, nat) -> string)
    requires index < |names|
    ensures DisplayString(ChoiceParameter(names, index), value, suffix, format) == names[index]
  {
  }

  /** Above 999 with a suffix: the value in thousands, two decimals, a space, "k", the suffix. */
  lemma ThousandsLabel(value: real, suffix: string, format: (real, nat) -> string)
    requires value > 999.0 && suffix != ""
    ensures DisplayString(FloatParameter, value, suffix, format) == format(value / 1000.0, 2) + " k" + suffix
  {
  }

  /** Up to 999 with a suffix: the value formatted with decimal-places argument 0, a space, the suffix. */
  lemma UnitsLabel(value: real, suffix: string, format: (real, nat) -> string)
    requires value <= 999.0 && suffix != ""
    ensures DisplayString(FloatParameter, value, suffix, format) == format(value, 0) + " " + suffix
  {
  }

  /** Any other parameter kind gets no number: only the space and the suffix, never a "k". */
  lemma OtherParameterLabel(value: real, suffix: string, format: (real, nat) -> string)
    ensures DisplayString(OtherParameter, value, suffix, format) == if suffix != "" then " " + suffix else ""
  {
  }

  /** With an empty suffix the label is the formatted number alone: no space and no "k". */
  lemma BareNumberLabel(value: real, format: (real, nat) -> string)
    ensures DisplayString(FloatParameter, value, "", format) ==
      if value > 999.0 then format(value / 1000.0, 2) else format(value, 0)
  {
  }

  /**
   * For a formatter that never writes "k" and a unit without "k", a float label contains "k"
   * exactly when the value is above 999 and the suffix is non-empty.
   */
  lemma KiloMarkIffThousands(value: real, suffix: string, format: (real, nat) -> string)
    requires forall x: real, decimals: nat :: 'k' !in format(x, decimals)
    requires 'k' !in suffix
    ensures 'k' in DisplayString(FloatParameter, value, suffix, format) <==> value > 999.0 && suffix != ""
  {
    var addK := value > 999.0;
    var str := format(if addK then value / 1000.0 else value, if addK then 2 else 0);
    if suffix != "" {
      var tail := (if addK then "k" else "") + suffix;
      assert DisplayString(FloatParameter, value, suffix, format) == str + " " + tail;
      assert 'k' in str + " " + tail <==> 'k' in str || 'k' in " " || 'k' in tail;
      assert 'k' in tail <==> addK;
    }
  }
}
