/*
 * The types of the equaliser's filter chain: the four slope tiers, the three
 * chain positions, the settings snapshot with its defaults, one biquad stage
 * (an opaque coefficient set plus a bypass flag), and the mono chain
 * LowCut bank -> Peak stage -> HighCut bank with its two fixed four-slot banks.
 *
 * The coefficient set is the type parameter C throughout: its numbers are
 * produced by the filter designers and are never inspected by the chain logic.
 */
module ChainTypes {

  /** Every cut bank holds exactly this many biquad slots, whatever slope is selected. */
  const BankSize: nat := 4

  /** Number of positions in a chain: LowCut, Peak, HighCut. */
  const PositionCount: nat := 3

  /** The four steepness tiers of a cut filter: 12, 24, 36 and 48 dB per octave. */
  datatype Slope = Slope12 | Slope24 | Slope36 | Slope48

  /** The enum value of a slope tier. */
  function Ordinal(s: Slope): (n: nat)
    ensures n < BankSize
  {
    match s
    case Slope12 => 0
    case Slope24 => 1
    case Slope36 => 2
    case Slope48 => 3
  }

  /** The slope tier whose enum value is `n`. */
  function SlopeAt(n: nat): (s: Slope)
    requires n < BankSize
    ensures Ordinal(s) == n
  {
    if n == 0 then Slope12 else if n == 1 then Slope24 else if n == 2 then Slope36 else Slope48
  }

  /** There are exactly four tiers: the enum values 0..3 name each tier once. */
  lemma SlopeOrdinalsAreExact(s: Slope)
    ensures SlopeAt(Ordinal(s)) == s
  {
  }

  /** The three positions of a chain, in processing order. */
  datatype ChainPosition = LowCut | Peak | HighCut

  function PositionIndex(p: ChainPosition): (i: nat)
    ensures i < PositionCount
  {
    match p
    case LowCut => 0
    case Peak => 1
    case HighCut => 2
  }

  /** The position at index `i`; LowCut is 0, Peak 1, HighCut 2. */
  function PositionAt(i: nat): (p: ChainPosition)
    requires i < PositionCount
    ensures PositionIndex(p) == i
  {
    if i == 0 then LowCut else if i == 1 then Peak else HighCut
  }

  /** A snapshot of the user's settings; frequencies in Hz, gain in dB. */
  datatype ChainSettings = ChainSettings(
    peakGainInDecibels: real,
    peakFreq: real,
    peakQuality: real,
    lowCutFreq: real,
    highCutFreq: real,
    lowCutSlope: Slope,
    highCutSlope: Slope)

  /** The member initialisers of the settings struct. */
  function DefaultChainSettings(): ChainSettings
  {
    ChainSettings(0.0, 0.0, 1.0, 0.0, 0.0, Slope12, Slope12)
  }

  /** One biquad section: its coefficient set and whether it is passed through. */
  datatype Stage<C> = Stage(coefficients: C, bypassed: bool)

  /** The value held by one mono chain: the two four-slot banks and the peak stage. */
  datatype Chain<C> = Chain(lowCut: seq<Stage<C>>, peak: Stage<C>, highCut: seq<Stage<C>>)

  predicate WellFormed<C>(v: Chain<C>)
  {
    |v.lowCut| == BankSize && |v.highCut| == BankSize
  }

  /** The stages at one position of the chain. */
  function PositionStages<C>(v: Chain<C>, p: ChainPosition): seq<Stage<C>>
  {
    match p
    case LowCut => v.lowCut
    case Peak => [v.peak]
    case HighCut => v.highCut
  }

  /** All stages of the chain in the order a sample passes through them. */
  function Stages<C>(v: Chain<C>): (r: seq<Stage<C>>)
    ensures WellFormed(v) ==> |r| == 2 * BankSize + 1
  {
    v.lowCut + [v.peak] + v.highCut
  }

  /** The stage order is the order of the positions 0, 1, 2. */
  lemma StagesFollowPositions<C>(v: Chain<C>)
    ensures Stages(v) == PositionStages(v, PositionAt(0)) + PositionStages(v, PositionAt(1))
                         + PositionStages(v, PositionAt(2))
  {
  }

  /** A freshly constructed chain: every stage active, every stage holding `init`. */
  function DefaultChain<C>(init: C): (v: Chain<C>)
    ensures WellFormed(v)
    ensures forall i :: 0 <= i < |Stages(v)| ==> Stages(v)[i] == Stage(init, false)
  {
    var s := Stage(init, false);
    Chain([s, s, s, s], s, [s, s, s, s])
  }

  /**
   * One mono chain object. The two banks are fixed arrays owned by the chain;
   * the peak stage is a field. Updates change array elements and the field in place.
   */
  class MonoChain<C> {
    const lowCut: array<Stage<C>>
    var peak: Stage<C>
    const highCut: array<Stage<C>>

    ghost predicate Valid()
    {
      lowCut.Length == BankSize && highCut.Length == BankSize && lowCut != highCut
    }

    /** The chain's current value. */
    function View(): (v: Chain<C>)
      requires Valid()
      reads this, lowCut, highCut
      ensures WellFormed(v)
    {
      Chain(lowCut[..], peak, highCut[..])
    }

    constructor (init: C)
      ensures Valid() && fresh(lowCut) && fresh(highCut)
      ensures View() == DefaultChain(init)
    {
      lowCut := new Stage<C>[BankSize](_ => Stage(init, false));
      peak := Stage(init, false);
      highCut := new Stage<C>[BankSize](_ => Stage(init, false));
      new;
      assert lowCut[..] == [Stage(init, false), Stage(init, false), Stage(init, false), Stage(init, false)];
      assert highCut[..] == [Stage(init, false), Stage(init, false), Stage(init, false), Stage(init, false)];
    }
  }
}
