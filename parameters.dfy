/** The processor's parameter layout (five ranged float parameters and two
    slope choices), the labels of the slope choices, and the per-block
    snapshot of parameter values. Values are modelled as reals; JUCE stores
    them as 32-bit floats. */
module Parameters {

  /** The seven parameter identifiers of the value tree. */
  datatype ParamId =
    | LowCutFreq | HighCutFreq | PeakFreq | PeakGain | PeakQuality
    | LowCutSlope | HighCutSlope

  /** Every identifier, in the order the layout declares them. */
  const AllParamIds: seq<ParamId> :=
    [LowCutFreq, HighCutFreq, PeakFreq, PeakGain, PeakQuality, LowCutSlope, HighCutSlope]

  lemma EveryParamIdListed()
    ensures forall id: ParamId :: id in AllParamIds
  {
    forall id: ParamId ensures id in AllParamIds {
      if id.LowCutFreq? || id.HighCutFreq? || id.PeakFreq? || id.PeakGain? {
      } else {
      }
    }
  }

  /** JUCE's NormalisableRange(start, end, interval, skew). */
  datatype NormalisableRange = NormalisableRange(start: real, end: real, interval: real, skew: real)

  datatype FloatParameter = FloatParameter(id: ParamId, range: NormalisableRange, defaultValue: real)

  datatype ChoiceParameter = ChoiceParameter(id: ParamId, choices: seq<string>, defaultItemIndex: int)

  datatype ParameterLayout = ParameterLayout(floats: seq<FloatParameter>, choices: seq<ChoiceParameter>)

  predicate InRange(r: NormalisableRange, v: real) {
    r.start <= v <= r.end
  }

  /** v lies a whole number of intervals above the start of the range. */
  predicate OnGrid(r: NormalisableRange, v: real) {
    r.interval > 0.0 && (var steps := (v - r.start) / r.interval; steps == steps.Floor as real)
  }

  // ---------------------------------------------------------------------------
  // Decimal rendering of the slope numbers (what `juce::String << int` does)
  // ---------------------------------------------------------------------------

  predicate IsDigit(c: char) {
    '0' <= c <= '9'
  }

  function DigitChar(d: nat): (c: char)
    requires d < 10
    ensures IsDigit(c)
  {
    ('0' as int + d) as char
  }

  function DigitValue(c: char): (d: nat)
    requires IsDigit(c)
    ensures d < 10 && DigitChar(d) == c
  {
    c as int - '0' as int
  }

  /** The shortest decimal spelling of n. */
  function NatToDecimal(n: nat): (s: string)
    ensures 0 < |s|
    ensures forall k :: 0 <= k < |s| ==> IsDigit(s[k])
    ensures s[0] == '0' ==> n == 0
    decreases n
  {
    if n < 10 then [DigitChar(n)] else NatToDecimal(n / 10) + [DigitChar(n % 10)]
  }

  /** The number a string of decimal digits denotes. */
  function DecimalValue(s: string): nat
    requires forall k :: 0 <= k < |s| ==> IsDigit(s[k])
  {
    if s == [] then 0 else 10 * DecimalValue(s[..|s| - 1]) + DigitValue(s[|s| - 1])
  }

  lemma {:induction false} DecimalRoundTrip(n: nat)
    ensures DecimalValue(NatToDecimal(n)) == n
    decreases n
  {
    var s := NatToDecimal(n);
    if n < 10 {
      assert s[..|s| - 1] == [];
    } else {
      assert s[..|s| - 1] == NatToDecimal(n / 10);
      DecimalRoundTrip(n / 10);
    }
  }

  // ---------------------------------------------------------------------------
  // Slope choice labels
  // ---------------------------------------------------------------------------

  const LabelSuffix: string := "db/Oct"

  /** The label of slope choice i: the number 12 + 12 i followed by "db/Oct". */
  function SlopeLabel(i: nat): string {
    NatToDecimal(12 + i * 12) + LabelSuffix
  }

  /** The choice list both slope parameters are given. */
  function SlopeLabels(): seq<string> {
    [SlopeLabel(0), SlopeLabel(1), SlopeLabel(2), SlopeLabel(3)]
  }

  /** The number in front of the suffix of a slope label. */
  function LabelNumber(text: string): string
    requires |text| >= |LabelSuffix|
  {
    text[..|text| - |LabelSuffix|]
  }

  /** The number written in slope label i is 12 (i + 1) dB/Oct. */
  lemma SlopeLabelReadsBack(i: nat)
    ensures |SlopeLabel(i)| > |LabelSuffix|
    ensures LabelNumber(SlopeLabel(i)) == NatToDecimal(12 * (i + 1))
    ensures DecimalValue(LabelNumber(SlopeLabel(i))) == 12 * (i + 1)
  {
    var text := SlopeLabel(i);
    assert LabelNumber(text) == NatToDecimal(12 + i * 12);
    DecimalRoundTrip(12 + i * 12);
  }

  /** Different choices never share a label. */
  lemma SlopeLabelInjective(i: nat, j: nat)
    requires SlopeLabel(i) == SlopeLabel(j)
    ensures i == j
  {
    SlopeLabelReadsBack(i);
    SlopeLabelReadsBack(j);
  }

  lemma SlopeLabelsSpelledOut()
    ensures SlopeLabels() == ["12db/Oct", "24db/Oct", "36db/Oct", "48db/Oct"]
  {
    assert NatToDecimal(12) == "12";
    assert NatToDecimal(24) == "24";
    assert NatToDecimal(36) == "36";
    assert NatToDecimal(48) == "48";
    assert SlopeLabel(0) == "12db/Oct";
    assert SlopeLabel(1) == "24db/Oct";
    assert SlopeLabel(2) == "36db/Oct";
    assert SlopeLabel(3) == "48db/Oct";
  }

  /** The label loop of create_parameter_layout: four passes, each appending
      the decimal number 12 + 12 i and the suffix. */
  method BuildSlopeLabels() returns (labels: seq<string>)
    ensures |labels| == 4
    ensures forall i :: 0 <= i < 4 ==> labels[i] == SlopeLabel(i)
    ensures forall i, j :: 0 <= i < 4 && 0 <= j < 4 && labels[i] == labels[j] ==> i == j
  {
    labels := [];
    var i: nat := 0;
    while i < 4
      invariant i <= 4
      invariant |labels| == i
      invariant forall k :: 0 <= k < i ==> labels[k] == SlopeLabel(k)
    {
      var text := NatToDecimal(12 + i * 12);
      text := text + LabelSuffix;
      labels := labels + [text];
      i := i + 1;
    }
    forall i, j | 0 <= i < 4 && 0 <= j < 4 && labels[i] == labels[j]
      ensures i == j
    {
      SlopeLabelInjective(i, j);
    }
  }

  // ---------------------------------------------------------------------------
  // The layout
  // ---------------------------------------------------------------------------

  function LayoutIds(layout: ParameterLayout): seq<ParamId> {
    seq(|layout.floats|, k requires 0 <= k < |layout.floats| => layout.floats[k].id)
    + seq(|layout.choices|, k requires 0 <= k < |layout.choices| => layout.choices[k].id)
  }

  /** create_parameter_layout: the five float parameters with their ranges
      and defaults, then the two slope choices defaulting to the first label. */
  function CreateParameterLayout(): (layout: ParameterLayout)
    ensures |layout.floats| == 5 && |layout.choices| == 2
    ensures |LayoutIds(layout)| == 7
    ensures forall id: ParamId :: id in LayoutIds(layout)
    ensures forall p :: p in layout.floats ==>
      p.range.start < p.range.end && InRange(p.range, p.defaultValue) && OnGrid(p.range, p.defaultValue)
    ensures forall c :: c in layout.choices ==>
      c.choices == SlopeLabels() && c.defaultItemIndex == 0 && 0 <= c.defaultItemIndex < |c.choices|
    ensures forall p :: p in layout.floats && p.id == PeakQuality ==> p.range.start < 0.0
    ensures layout.floats[0].id == LowCutFreq && layout.floats[0].defaultValue == 20.0
      && layout.floats[0].range == NormalisableRange(20.0, 20000.0, 1.0, 1.0)
    ensures layout.floats[1].id == HighCutFreq && layout.floats[1].defaultValue == 20000.0
      && layout.floats[1].range == NormalisableRange(20.0, 20000.0, 1.0, 1.0)
    ensures layout.floats[2].id == PeakFreq && layout.floats[2].defaultValue == 750.0
      && layout.floats[2].range == NormalisableRange(20.0, 20000.0, 1.0, 1.0)
    ensures layout.floats[3].id == PeakGain && layout.floats[3].defaultValue == 0.0
      && layout.floats[3].range == NormalisableRange(-24.0, 24.0, 0.5, 1.0)
    ensures layout.floats[4].id == PeakQuality && layout.floats[4].defaultValue == 1.0
      && layout.floats[4].range == NormalisableRange(-0.1, 10.0, 0.05, 1.0)
    ensures layout.choices[0].id == LowCutSlope && layout.choices[1].id == HighCutSlope
  {
    var freq := NormalisableRange(20.0, 20000.0, 1.0, 1.0);
    var layout := ParameterLayout(
      [ FloatParameter(LowCutFreq, freq, 20.0),
        FloatParameter(HighCutFreq, freq, 20000.0),
        FloatParameter(PeakFreq, freq, 750.0),
        FloatParameter(PeakGain, NormalisableRange(-24.0, 24.0, 0.5, 1.0), 0.0),
        FloatParameter(PeakQuality, NormalisableRange(-0.1, 10.0, 0.05, 1.0), 1.0) ],
      [ ChoiceParameter(LowCutSlope, SlopeLabels(), 0),
        ChoiceParameter(HighCutSlope, SlopeLabels(), 0) ]);
    assert LayoutIds(layout) == AllParamIds;
    EveryParamIdListed();
    layout
  }

  /** The raw values of a value tree respect a layout: every parameter has a
      value, floats inside their range, choices an index into their list. */
  ghost predicate WithinLayout(layout: ParameterLayout, values: map<ParamId, real>) {
    (forall p :: p in layout.floats ==> p.id in values && InRange(p.range, values[p.id]))
    && (forall c :: c in layout.choices ==>
          c.id in values && 0.0 <= values[c.id] <= (|c.choices| - 1) as real)
  }

  /** The raw values a freshly created value tree holds: every default. */
  function DefaultValues(): (values: map<ParamId, real>)
    ensures forall id: ParamId :: id in values
    ensures forall p :: p in CreateParameterLayout().floats ==> values[p.id] == p.defaultValue
    ensures forall c :: c in CreateParameterLayout().choices ==> values[c.id] == c.defaultItemIndex as real
    ensures WithinLayout(CreateParameterLayout(), values)
  {
    var values := map[LowCutFreq := 20.0, HighCutFreq := 20000.0, PeakFreq := 750.0, PeakGain := 0.0,
                      PeakQuality := 1.0, LowCutSlope := 0.0, HighCutSlope := 0.0];
    EveryParamIdListed();
    assert forall id :: id in AllParamIds ==> id in values;
    values
  }

  // ---------------------------------------------------------------------------
  // The snapshot read at the start of every block
  // ---------------------------------------------------------------------------

  /** The ChainSettings record. Slopes are the enum's underlying integer. */
  datatype ChainSettings = ChainSettings(
    peakFreq: real, peakGainInDecibels: real, peakQuality: real,
    lowCutFreq: real, highCutFreq: real,
    lowCutSlope: int, highCutSlope: int)

  /** C++ float-to-integer conversion: truncation toward zero. */
  function TruncateToInt(x: real): (r: int)
    ensures 0.0 <= x ==> 0 <= r && r as real <= x < r as real + 1.0
    ensures x < 0.0 ==> r <= 0 && r as real - 1.0 < x <= r as real
  {
    if 0.0 <= x then x.Floor else -((-x).Floor)
  }

  /** get_chain_settings: one read of every raw value; the slopes go through
      static_cast, which truncates. */
  function GetChainSettings(values: map<ParamId, real>): (s: ChainSettings)
    requires forall id: ParamId :: id in values
    ensures s.peakFreq == values[PeakFreq] && s.peakGainInDecibels == values[PeakGain]
    ensures s.peakQuality == values[PeakQuality]
    ensures s.lowCutFreq == values[LowCutFreq] && s.highCutFreq == values[HighCutFreq]
    ensures 0.0 <= values[LowCutSlope] ==>
      0 <= s.lowCutSlope && s.lowCutSlope as real <= values[LowCutSlope] < s.lowCutSlope as real + 1.0
    ensures values[LowCutSlope] < 0.0 ==>
      s.lowCutSlope <= 0 && s.lowCutSlope as real - 1.0 < values[LowCutSlope] <= s.lowCutSlope as real
    ensures 0.0 <= values[HighCutSlope] ==>
      0 <= s.highCutSlope && s.highCutSlope as real <= values[HighCutSlope] < s.highCutSlope as real + 1.0
    ensures values[HighCutSlope] < 0.0 ==>
      s.highCutSlope <= 0 && s.highCutSlope as real - 1.0 < values[HighCutSlope] <= s.highCutSlope as real
  {
    ChainSettings(
      peakFreq := values[PeakFreq],
      peakGainInDecibels := values[PeakGain],
      peakQuality := values[PeakQuality],
      lowCutFreq := values[LowCutFreq],
      highCutFreq := values[HighCutFreq],
      lowCutSlope := TruncateToInt(values[LowCutSlope]),
      highCutSlope := TruncateToInt(values[HighCutSlope]))
  }

  /** Raw values within the layout give a snapshot whose slopes index the
      four choices and whose frequencies, gain and quality lie in their ranges. */
  lemma SnapshotWithinRanges(values: map<ParamId, real>)
    requires forall id: ParamId :: id in values
    requires WithinLayout(CreateParameterLayout(), values)
    ensures var s := GetChainSettings(values);
      0 <= s.lowCutSlope <= 3 && 0 <= s.highCutSlope <= 3
      && 20.0 <= s.lowCutFreq <= 20000.0 && 20.0 <= s.highCutFreq <= 20000.0
      && 20.0 <= s.peakFreq <= 20000.0
      && -24.0 <= s.peakGainInDecibels <= 24.0
      && -0.1 <= s.peakQuality <= 10.0
  {
  }

  /** A fresh processor's first snapshot: 750 Hz / 0 dB / Q 1 peak, 20 Hz
      low cut and 20000 Hz high cut, both at 12 dB/Oct (index 0). */
  lemma DefaultSnapshot()
    ensures GetChainSettings(DefaultValues()) == ChainSettings(750.0, 0.0, 1.0, 20.0, 20000.0, 0, 0)
  {
  }
}
