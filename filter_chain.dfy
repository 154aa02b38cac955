/** One mono filter chain: a low-cut bank of four filter slots, the peak
    filter, and a high-cut bank of four slots. Each slot of a bank has a
    bypass flag and a coefficient set; coefficient sets are opaque values of
    the type parameter C (JUCE designs them; the model only moves them). */
module FilterChain {
  import opened Parameters

  /** Slots per cut bank (a ProcessorChain of four IIR filters). */
  const CutSlots: nat := 4

  /** The Butterworth order requested for a slope index: 2 (slope + 1). */
  function DesignOrder(slope: int): int {
    2 * (slope + 1)
  }

  /** How many slots the switch re-enables: slope + 1 for the four
      enumerators 0..3, none for a value that matches no case. */
  function EnabledSections(slope: int): nat {
    if 0 <= slope < CutSlots then slope + 1 else 0
  }

  /** The designed cascade has one second-order section per two orders, so
      every index the switch reads for its slope exists. */
  predicate CoversSwitch<C>(slope: int, designed: seq<C>) {
    0 <= slope < CutSlots ==> |designed| == DesignOrder(slope) / 2
  }

  /** The value of one bank: its four bypass flags and four coefficient sets. */
  datatype BankState<C> = BankState(bypassed: seq<bool>, coefficients: seq<C>)

  predicate WellFormed<C>(b: BankState<C>) {
    |b.bypassed| == CutSlots && |b.coefficients| == CutSlots
  }

  /** The bank after one update: all four slots reset to bypassed, then slots
      0..slope given designed section i and re-enabled. */
  function Configured<C>(prev: BankState<C>, slope: int, designed: seq<C>): (next: BankState<C>)
    requires WellFormed(prev) && CoversSwitch(slope, designed)
    ensures WellFormed(next)
    ensures forall i :: 0 <= i < CutSlots ==>
      (!next.bypassed[i] <==> 0 <= slope < CutSlots && i <= slope)
    ensures forall i :: 0 <= i < CutSlots && !next.bypassed[i] ==>
      i < |designed| && next.coefficients[i] == designed[i]
    ensures forall i :: 0 <= i < CutSlots && next.bypassed[i] ==>
      next.coefficients[i] == prev.coefficients[i]
  {
    var k := EnabledSections(slope);
    BankState(
      seq(CutSlots, i => k <= i),
      seq(CutSlots, i requires 0 <= i < CutSlots => if i < k then designed[i] else prev.coefficients[i]))
  }

  /** Number of slots that are not bypassed. */
  function CountEnabled(flags: seq<bool>): nat {
    if flags == [] then 0 else (if flags[0] then 0 else 1) + CountEnabled(flags[1..])
  }

  lemma {:induction false} CountEnabledPrefix(flags: seq<bool>, k: nat)
    requires k <= |flags|
    requires forall i :: 0 <= i < |flags| ==> flags[i] == (k <= i)
    ensures CountEnabled(flags) == k
    decreases |flags|
  {
    if flags != [] {
      if k == 0 {
        CountEnabledPrefix(flags[1..], 0);
      } else {
        CountEnabledPrefix(flags[1..], k - 1);
      }
    }
  }

  /** Exactly slope + 1 slots are enabled for the four slopes; a value that
      matches no case of the switch leaves every slot bypassed. */
  lemma EnabledCount<C>(prev: BankState<C>, slope: int, designed: seq<C>)
    requires WellFormed(prev) && CoversSwitch(slope, designed)
    ensures CountEnabled(Configured(prev, slope, designed).bypassed)
      == if 0 <= slope < CutSlots then slope + 1 else 0
    ensures !(0 <= slope < CutSlots) ==>
      forall i :: 0 <= i < CutSlots ==> Configured(prev, slope, designed).bypassed[i]
  {
    CountEnabledPrefix(Configured(prev, slope, designed).bypassed, EnabledSections(slope));
  }

  /** The enabled set and the enabled coefficients depend only on the slope
      and the designed cascade, not on what the bank held before. */
  lemma ConfiguredForgetsHistory<C>(p: BankState<C>, q: BankState<C>, slope: int, designed: seq<C>)
    requires WellFormed(p) && WellFormed(q) && CoversSwitch(slope, designed)
    ensures Configured(p, slope, designed).bypassed == Configured(q, slope, designed).bypassed
    ensures forall i :: 0 <= i < CutSlots && !Configured(p, slope, designed).bypassed[i] ==>
      Configured(p, slope, designed).coefficients[i] == Configured(q, slope, designed).coefficients[i]
  {
  }

  /** Repeating an update with the same inputs changes nothing. */
  lemma ConfiguredIdempotent<C>(prev: BankState<C>, slope: int, designed: seq<C>)
    requires WellFormed(prev) && CoversSwitch(slope, designed)
    ensures Configured(Configured(prev, slope, designed), slope, designed) == Configured(prev, slope, designed)
  {
  }

  /** 48 dB/Oct then 12 dB/Oct: slot 0 holds the new section, slots 1..3 are
      bypassed and keep the sections of the 48 dB/Oct design. */
  lemma SteepToShallow<C>(prev: BankState<C>, steep: seq<C>, shallow: seq<C>)
    requires WellFormed(prev) && CoversSwitch(3, steep) && CoversSwitch(0, shallow)
    ensures Configured(Configured(prev, 3, steep), 0, shallow)
      == BankState([false, true, true, true], [shallow[0], steep[1], steep[2], steep[3]])
  {
  }

  /** The label of choice i reads 6 dB/Oct per filter order, and the switch
      enables one slot per second-order section of that order. */
  lemma LabelMatchesDesignOrder(i: nat)
    requires i < CutSlots
    ensures DecimalValue(LabelNumber(SlopeLabel(i))) == 6 * DesignOrder(i)
    ensures EnabledSections(i) == DesignOrder(i) / 2
  {
    SlopeLabelReadsBack(i);
  }

  /** A cut bank: ProcessorChain<filter, filter, filter, filter>. The chain
      keeps the bypass flags; each filter holds its coefficient set. */
  class CutFilter<C> {
    const bypassed: array<bool>
    const coefficients: array<C>
    ghost const Repr: set<object>

    ghost predicate Valid() {
      bypassed.Length == CutSlots && coefficients.Length == CutSlots
      && bypassed as object != coefficients as object
      && Repr == {bypassed as object, coefficients as object}
    }

    ghost function State(): (b: BankState<C>)
      reads bypassed, coefficients
      requires Valid()
      ensures WellFormed(b)
    {
      BankState(bypassed[..], coefficients[..])
    }

    /** A new chain: no slot bypassed, every filter with the initial coefficients. */
    constructor (initial: C)
      ensures Valid() && fresh(Repr)
      ensures State() == BankState([false, false, false, false], [initial, initial, initial, initial])
    {
      var flags := new bool[CutSlots](_ => false);
      var sets := new C[CutSlots](_ => initial);
      bypassed, coefficients := flags, sets;
      Repr := {flags as object, sets as object};
      new;
      assert bypassed[..] == [false, false, false, false];
      assert coefficients[..] == [initial, initial, initial, initial];
    }

    /** The four setBypassed(true) calls followed by the switch on the slope. */
    method Configure(slope: int, designed: seq<C>)
      requires Valid() && CoversSwitch(slope, designed)
      modifies bypassed, coefficients
      ensures Valid()
      ensures State() == Configured(old(State()), slope, designed)
    {
      bypassed[0] := true;
      bypassed[1] := true;
      bypassed[2] := true;
      bypassed[3] := true;
      match slope {
        case 0 =>
          coefficients[0] := designed[0];
          bypassed[0] := false;
        case 1 =>
          coefficients[0] := designed[0];
          bypassed[0] := false;
          coefficients[1] := designed[1];
          bypassed[1] := false;
        case 2 =>
          coefficients[0] := designed[0];
          bypassed[0] := false;
          coefficients[1] := designed[1];
          bypassed[1] := false;
          coefficients[2] := designed[2];
          bypassed[2] := false;
        case 3 =>
          coefficients[0] := designed[0];
          bypassed[0] := false;
          coefficients[1] := designed[1];
          bypassed[1] := false;
          coefficients[2] := designed[2];
          bypassed[2] := false;
          coefficients[3] := designed[3];
          bypassed[3] := false;
        case _ =>
      }
      assert State().bypassed == Configured(old(State()), slope, designed).bypassed;
      assert State().coefficients == Configured(old(State()), slope, designed).coefficients;
    }
  }

  /** mono_chain: ProcessorChain<cut_filter, filter, cut_filter>. */
  class MonoChain<C> {
    const lowCut: CutFilter<C>
    var peak: C
    const highCut: CutFilter<C>
    /** The arrays of both banks. */
    ghost const Repr: set<object>

    ghost predicate Valid() {
      lowCut.Valid() && highCut.Valid() && lowCut.Repr !! highCut.Repr
      && Repr == lowCut.Repr + highCut.Repr
    }

    constructor (initial: C)
      ensures Valid() && fresh(Repr)
      ensures peak == initial
      ensures lowCut.State() == BankState([false, false, false, false], [initial, initial, initial, initial])
      ensures highCut.State() == BankState([false, false, false, false], [initial, initial, initial, initial])
    {
      var low := new CutFilter(initial);
      var high := new CutFilter(initial);
      lowCut, peak, highCut := low, initial, high;
      Repr := low.Repr + high.Repr;
    }
  }
}
