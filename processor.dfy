/** The audio processor: two mono chains kept in step by one update per
    block, and the clearing of output channels that have no input. The JUCE
    coefficient designers are given to the processor as functions; the host
    supplies the sample rate and the channel counts. */
module Processor {
  import opened Parameters
  import opened FilterChain

  /** What the model relies on from the Butterworth designer: a positive even
      order N yields N / 2 second-order sections. */
  ghost predicate SectionsPerOrder<C>(design: (real, real, int) -> seq<C>) {
    forall freq, rate, order :: 0 < order && order % 2 == 0 ==> |design(freq, rate, order)| == order / 2
  }

  /** The cascade is requested with order 2 (slope + 1), so for the four
      slope indices it has slope + 1 sections and every index the switch
      reads exists. */
  lemma DesignerCoversSwitch<C>(design: (real, real, int) -> seq<C>, freq: real, rate: real, slope: int)
    requires SectionsPerOrder(design)
    ensures CoversSwitch(slope, design(freq, rate, DesignOrder(slope)))
    ensures 0 <= slope < CutSlots ==> |design(freq, rate, DesignOrder(slope))| == slope + 1
  {
  }

  /** buffer.clear(channel, 0, numSamples): every sample of one channel set to zero. */
  method ClearChannel(buffer: array2<real>, channel: nat)
    requires channel < buffer.Length0
    modifies buffer
    ensures forall c, k :: 0 <= c < buffer.Length0 && 0 <= k < buffer.Length1 ==>
      buffer[c, k] == if c == channel then 0.0 else old(buffer[c, k])
  {
    var k := 0;
    while k < buffer.Length1
      invariant 0 <= k <= buffer.Length1
      invariant forall c, j :: 0 <= c < buffer.Length0 && 0 <= j < buffer.Length1 ==>
        buffer[c, j] == if c == channel && j < k then 0.0 else old(buffer[c, j])
    {
      buffer[channel, k] := 0.0;
      k := k + 1;
    }
  }

  /** The loop at the top of processBlock: every output channel from the
      input count up to the output count is cleared over the whole block. */
  method ClearUnusedOutputs(buffer: array2<real>, totalNumInputChannels: int, totalNumOutputChannels: int)
    requires 0 <= totalNumInputChannels && totalNumOutputChannels <= buffer.Length0
    modifies buffer
    ensures forall c, k :: 0 <= c < buffer.Length0 && 0 <= k < buffer.Length1 ==>
      buffer[c, k] == if totalNumInputChannels <= c < totalNumOutputChannels then 0.0 else old(buffer[c, k])
  {
    var i := totalNumInputChannels;
    while i < totalNumOutputChannels
      invariant i == totalNumInputChannels || totalNumInputChannels < i <= totalNumOutputChannels
      invariant forall c, k :: 0 <= c < buffer.Length0 && 0 <= k < buffer.Length1 ==>
        buffer[c, k] == if totalNumInputChannels <= c < i then 0.0 else old(buffer[c, k])
    {
      ClearChannel(buffer, i);
      i := i + 1;
    }
  }

  /** SEQAudioProcessor: the value tree's raw parameter values and the
      left and right chains. */
  class SeqAudioProcessor<C> {
    const leftChain: MonoChain<C>
    const rightChain: MonoChain<C>
    /** Raw values of the value tree, written by the host and the editor. */
    var values: map<ParamId, real>
    /** makePeakFilter(sampleRate, frequency, quality, gain in decibels). */
    const makePeakFilter: (real, real, real, real) -> C
    /** designIIRHighpassHighOrderButterworthMethod(frequency, sampleRate, order). */
    const designLowCut: (real, real, int) -> seq<C>

    ghost predicate Valid()
      reads this
    {
      leftChain.Valid() && rightChain.Valid() && leftChain.Repr !! rightChain.Repr
      && (forall id: ParamId :: id in values)
      && SectionsPerOrder(designLowCut)
    }

    /** The peaks are equal, the low-cut banks enable the same slots, and
        every enabled slot holds the same coefficients on both sides. */
    ghost predicate ChainsInStep()
      requires Valid()
      reads this, leftChain, rightChain, leftChain.Repr, rightChain.Repr
    {
      leftChain.peak == rightChain.peak
      && leftChain.lowCut.State().bypassed == rightChain.lowCut.State().bypassed
      && forall i :: 0 <= i < CutSlots && !leftChain.lowCut.State().bypassed[i] ==>
           leftChain.lowCut.State().coefficients[i] == rightChain.lowCut.State().coefficients[i]
    }

    /** The state after one filter update at the given sample rate: both
        peaks from the snapshot, both low-cut banks configured from the same
        designed cascade, both high-cut banks as they were. */
    twostate predicate FiltersUpdated(sampleRate: real)
      requires old(Valid()) && Valid()
      reads this, leftChain, rightChain, leftChain.Repr, rightChain.Repr
    {
      var s := GetChainSettings(values);
      var designed := designLowCut(s.lowCutFreq, sampleRate, DesignOrder(s.lowCutSlope));
      CoversSwitch(s.lowCutSlope, designed)
      && leftChain.peak == makePeakFilter(sampleRate, s.peakFreq, s.peakQuality, s.peakGainInDecibels)
      && rightChain.peak == leftChain.peak
      && leftChain.lowCut.State() == Configured(old(leftChain.lowCut.State()), s.lowCutSlope, designed)
      && rightChain.lowCut.State() == Configured(old(rightChain.lowCut.State()), s.lowCutSlope, designed)
      && leftChain.highCut.State() == old(leftChain.highCut.State())
      && rightChain.highCut.State() == old(rightChain.highCut.State())
    }

    /** The value tree starts at every parameter's default; both chains
        start unbypassed with the initial coefficients. */
    constructor (makePeakFilter: (real, real, real, real) -> C, designLowCut: (real, real, int) -> seq<C>, initial: C)
      requires SectionsPerOrder(designLowCut)
      ensures Valid()
      ensures values == DefaultValues()
      ensures this.makePeakFilter == makePeakFilter && this.designLowCut == designLowCut
      ensures fresh(leftChain.Repr) && fresh(rightChain.Repr)
      ensures leftChain.peak == initial && rightChain.peak == initial
      ensures leftChain.lowCut.State() == BankState([false, false, false, false], [initial, initial, initial, initial])
      ensures rightChain.lowCut.State() == BankState([false, false, false, false], [initial, initial, initial, initial])
      ensures leftChain.highCut.State() == BankState([false, false, false, false], [initial, initial, initial, initial])
      ensures rightChain.highCut.State() == BankState([false, false, false, false], [initial, initial, initial, initial])
      ensures ChainsInStep()
    {
      var left := new MonoChain(initial);
      var right := new MonoChain(initial);
      leftChain, rightChain := left, right;
      values := DefaultValues();
      this.makePeakFilter, this.designLowCut := makePeakFilter, designLowCut;
    }

    /** The coefficient update shared by prepareToPlay and processBlock: one
        snapshot, the peak coefficients to both chains, then the low-cut
        reset-and-switch on the left bank and on the right bank. */
    method UpdateFilters(sampleRate: real)
      requires Valid()
      modifies leftChain, rightChain, leftChain.lowCut.Repr, rightChain.lowCut.Repr
      ensures Valid()
      ensures FiltersUpdated(sampleRate)
      ensures ChainsInStep()
    {
      var settings := GetChainSettings(values);
      var peakCoefficients := makePeakFilter(sampleRate, settings.peakFreq, settings.peakQuality, settings.peakGainInDecibels);
      leftChain.peak := peakCoefficients;
      rightChain.peak := peakCoefficients;
      var cutCoefficients := designLowCut(settings.lowCutFreq, sampleRate, DesignOrder(settings.lowCutSlope));
      ghost var leftBefore, rightBefore := leftChain.lowCut.State(), rightChain.lowCut.State();
      leftChain.lowCut.Configure(settings.lowCutSlope, cutCoefficients);
      rightChain.lowCut.Configure(settings.lowCutSlope, cutCoefficients);
      ConfiguredForgetsHistory(leftBefore, rightBefore, settings.lowCutSlope, cutCoefficients);
    }

    /** prepareToPlay: the chains are prepared (filter state is not
        modelled), then the filters are updated at the new sample rate. */
    method PrepareToPlay(sampleRate: real, samplesPerBlock: int)
      requires Valid()
      modifies leftChain, rightChain, leftChain.lowCut.Repr, rightChain.lowCut.Repr
      ensures Valid()
      ensures FiltersUpdated(sampleRate)
      ensures ChainsInStep()
    {
      UpdateFilters(sampleRate);
    }

    /** processBlock up to the point where the chains run: unused outputs
        cleared, then the filters updated at the host's sample rate. Channel
        1 is read unconditionally, so the buffer has at least two channels. */
    method ProcessBlock(buffer: array2<real>, totalNumInputChannels: int, totalNumOutputChannels: int, sampleRate: real)
      requires Valid()
      requires 2 <= buffer.Length0
      requires 0 <= totalNumInputChannels && totalNumOutputChannels <= buffer.Length0
      modifies buffer, leftChain, rightChain, leftChain.lowCut.Repr, rightChain.lowCut.Repr
      ensures Valid()
      ensures forall c, k :: 0 <= c < buffer.Length0 && 0 <= k < buffer.Length1 ==>
        buffer[c, k] == if totalNumInputChannels <= c < totalNumOutputChannels then 0.0 else old(buffer[c, k])
      ensures FiltersUpdated(sampleRate)
      ensures ChainsInStep()
    {
      ClearUnusedOutputs(buffer, totalNumInputChannels, totalNumOutputChannels);
      UpdateFilters(sampleRate);
    }
  }
}
