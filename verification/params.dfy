/**
 This module models the firmware's parameter record: nine controls per channel, six
 cross-channel and master controls, and one filter mode per channel. Values are reals; the
 per-control range is the one the serial dispatcher clamps to.
 */
module Params {

  datatype Channel = Ch1 | Ch2

  /** The filter response a channel's state-variable filter outputs (enum values 0, 1, 2). */
  datatype FilterMode = Lowpass | Bandpass | Highpass

  /** The enum's numeric value. */
  function ModeValue(m: FilterMode): (n: int)
    ensures 0 <= n <= 2
  {
    match m
    case Lowpass => 0
    case Bandpass => 1
    case Highpass => 2
  }

  /** The cast from an integer in 0..2 back to the enum. */
  function ModeOf(n: int): (m: FilterMode)
    requires 0 <= n <= 2
    ensures ModeValue(m) == n
  {
    if n == 0 then Lowpass else if n == 1 then Bandpass else Highpass
  }

  /** Every real-valued control the dispatcher can set. */
  datatype Knob =
    | Gain(ch: Channel)
    | Drive(ch: Channel)
    | FilterFreq(ch: Channel)
    | FilterRes(ch: Channel)
    | DelayTime(ch: Channel)
    | DelayFeedback(ch: Channel)
    | DelayMix(ch: Channel)
    | ChorusDepth(ch: Channel)
    | ChorusRate(ch: Channel)
    | CrossModAmt
    | CrossBleed
    | StereoWidth
    | ReverbMix
    | ReverbTime
    | MasterGain

  datatype ChannelParams = ChannelParams(
    gain: real,
    drive: real,
    filterFreq: real,
    filterRes: real,
    delayTime: real,
    delayFeedback: real,
    delayMix: real,
    chorusDepth: real,
    chorusRate: real,
    filterMode: FilterMode)

  datatype Params = Params(
    ch1: ChannelParams,
    ch2: ChannelParams,
    crossModAmt: real,
    crossBleed: real,
    stereoWidth: real,
    reverbMix: real,
    reverbTime: real,
    masterGain: real)

  /** The start-up values of one channel. */
  function InitialChannel(): ChannelParams
  {
    ChannelParams(1.0, 0.0, 10000.0, 0.1, 0.0, 0.0, 0.0, 0.0, 0.5, Lowpass)
  }

  /** The start-up values of the whole record. */
  function InitialParams(): (p: Params)
    ensures InRange(p)
  {
    Params(InitialChannel(), InitialChannel(), 0.0, 0.0, 1.0, 0.0, 0.5, 1.0)
  }

  /** Lower bound of a control's range. */
  function Lo(k: Knob): real
  {
    match k
    case FilterFreq(_) => 20.0
    case ChorusRate(_) => 0.01
    case _ => 0.0
  }

  /** Upper bound of a control's range. */
  function Hi(k: Knob): real
  {
    match k
    case Gain(_) => 2.0
    case StereoWidth => 2.0
    case MasterGain => 2.0
    case FilterFreq(_) => 20000.0
    case DelayFeedback(_) => 0.95
    case ChorusRate(_) => 10.0
    case _ => 1.0
  }

  lemma RangesNonEmpty(k: Knob)
    ensures Lo(k) < Hi(k)
  {
  }

  function ChannelOf(p: Params, ch: Channel): ChannelParams
  {
    match ch
    case Ch1 => p.ch1
    case Ch2 => p.ch2
  }

  function WithChannel(p: Params, ch: Channel, c: ChannelParams): (r: Params)
    ensures ChannelOf(r, ch) == c
    ensures forall other :: other != ch ==> ChannelOf(r, other) == ChannelOf(p, other)
    ensures r.crossModAmt == p.crossModAmt && r.crossBleed == p.crossBleed
    ensures r.stereoWidth == p.stereoWidth && r.reverbMix == p.reverbMix
    ensures r.reverbTime == p.reverbTime && r.masterGain == p.masterGain
  {
    match ch
    case Ch1 => p.(ch1 := c)
    case Ch2 => p.(ch2 := c)
  }

  /** The current value of a control. */
  function Get(p: Params, k: Knob): real
  {
    match k
    case Gain(ch) => ChannelOf(p, ch).gain
    case Drive(ch) => ChannelOf(p, ch).drive
    case FilterFreq(ch) => ChannelOf(p, ch).filterFreq
    case FilterRes(ch) => ChannelOf(p, ch).filterRes
    case DelayTime(ch) => ChannelOf(p, ch).delayTime
    case DelayFeedback(ch) => ChannelOf(p, ch).delayFeedback
    case DelayMix(ch) => ChannelOf(p, ch).delayMix
    case ChorusDepth(ch) => ChannelOf(p, ch).chorusDepth
    case ChorusRate(ch) => ChannelOf(p, ch).chorusRate
    case CrossModAmt => p.crossModAmt
    case CrossBleed => p.crossBleed
    case StereoWidth => p.stereoWidth
    case ReverbMix => p.reverbMix
    case ReverbTime => p.reverbTime
    case MasterGain => p.masterGain
  }

  /** A channel's filter mode. */
  function Mode(p: Params, ch: Channel): FilterMode
  {
    ChannelOf(p, ch).filterMode
  }

  /** The record with one control set to `v`: that control reads `v`, nothing else changes. */
  function With(p: Params, k: Knob, v: real): (r: Params)
    ensures Get(r, k) == v
    ensures forall j :: j != k ==> Get(r, j) == Get(p, j)
    ensures forall ch :: Mode(r, ch) == Mode(p, ch)
  {
    match k
    case Gain(ch) => WithChannel(p, ch, ChannelOf(p, ch).(gain := v))
    case Drive(ch) => WithChannel(p, ch, ChannelOf(p, ch).(drive := v))
    case FilterFreq(ch) => WithChannel(p, ch, ChannelOf(p, ch).(filterFreq := v))
    case FilterRes(ch) => WithChannel(p, ch, ChannelOf(p, ch).(filterRes := v))
    case DelayTime(ch) => WithChannel(p, ch, ChannelOf(p, ch).(delayTime := v))
    case DelayFeedback(ch) => WithChannel(p, ch, ChannelOf(p, ch).(delayFeedback := v))
    case DelayMix(ch) => WithChannel(p, ch, ChannelOf(p, ch).(delayMix := v))
    case ChorusDepth(ch) => WithChannel(p, ch, ChannelOf(p, ch).(chorusDepth := v))
    case ChorusRate(ch) => WithChannel(p, ch, ChannelOf(p, ch).(chorusRate := v))
    case CrossModAmt => p.(crossModAmt := v)
    case CrossBleed => p.(crossBleed := v)
    case StereoWidth => p.(stereoWidth := v)
    case ReverbMix => p.(reverbMix := v)
    case ReverbTime => p.(reverbTime := v)
    case MasterGain => p.(masterGain := v)
  }

  /** The record with one channel's filter mode set: no control and no other mode changes. */
  function WithMode(p: Params, ch: Channel, m: FilterMode): (r: Params)
    ensures Mode(r, ch) == m
    ensures forall other :: other != ch ==> Mode(r, other) == Mode(p, other)
    ensures forall j :: Get(r, j) == Get(p, j)
  {
    WithChannel(p, ch, ChannelOf(p, ch).(filterMode := m))
  }

  /** Two records that agree on every control and both modes are the same record. */
  lemma Extensionality(p: Params, q: Params)
    requires forall k :: Get(p, k) == Get(q, k)
    requires forall ch :: Mode(p, ch) == Mode(q, ch)
    ensures p == q
  {
    forall ch: Channel ensures ChannelOf(p, ch) == ChannelOf(q, ch) {
      assert Get(p, Gain(ch)) == Get(q, Gain(ch));
      assert Get(p, Drive(ch)) == Get(q, Drive(ch));
      assert Get(p, FilterFreq(ch)) == Get(q, FilterFreq(ch));
      assert Get(p, FilterRes(ch)) == Get(q, FilterRes(ch));
      assert Get(p, DelayTime(ch)) == Get(q, DelayTime(ch));
      assert Get(p, DelayFeedback(ch)) == Get(q, DelayFeedback(ch));
      assert Get(p, DelayMix(ch)) == Get(q, DelayMix(ch));
      assert Get(p, ChorusDepth(ch)) == Get(q, ChorusDepth(ch));
      assert Get(p, ChorusRate(ch)) == Get(q, ChorusRate(ch));
      assert Mode(p, ch) == Mode(q, ch);
    }
    assert ChannelOf(p, Ch1) == ChannelOf(q, Ch1);
    assert ChannelOf(p, Ch2) == ChannelOf(q, Ch2);
    assert Get(p, CrossModAmt) == Get(q, CrossModAmt);
    assert Get(p, CrossBleed) == Get(q, CrossBleed);
    assert Get(p, StereoWidth) == Get(q, StereoWidth);
    assert Get(p, ReverbMix) == Get(q, ReverbMix);
    assert Get(p, ReverbTime) == Get(q, ReverbTime);
    assert Get(p, MasterGain) == Get(q, MasterGain);
  }

  /** Every control lies within its range. */
  ghost predicate InRange(p: Params)
  {
    forall k :: Lo(k) <= Get(p, k) <= Hi(k)
  }

  function Min(a: real, b: real): real
  {
    if a <= b then a else b
  }

  function Max(a: real, b: real): real
  {
    if a >= b then a else b
  }

  /** The clamp used by the dispatcher: min(max(v, lo), hi). */
  function Clamp(v: real, lo: real, hi: real): (r: real)
    ensures r <= hi
    ensures lo <= hi ==> lo <= r
    ensures lo <= v <= hi ==> r == v
    ensures lo <= hi && v <= lo ==> r == lo
    ensures v >= hi ==> r == hi
  {
    Min(Max(v, lo), hi)
  }

  function Abs(x: real): real
  {
    if x < 0.0 then -x else x
  }

  /** On a non-empty range, the clamp returns the point of the range nearest to `v`. */
  lemma ClampIsNearest(v: real, lo: real, hi: real, x: real)
    requires lo <= hi && lo <= x <= hi
    ensures lo <= Clamp(v, lo, hi) <= hi
    ensures Abs(Clamp(v, lo, hi) - v) <= Abs(x - v)
  {
  }

  /** Clamping an already clamped value changes nothing. */
  lemma ClampIdempotent(v: real, lo: real, hi: real)
    requires lo <= hi
    ensures Clamp(Clamp(v, lo, hi), lo, hi) == Clamp(v, lo, hi)
  {
  }

  /** C's conversion of a floating value to `int`: the fraction is discarded (toward zero). */
  function Trunc(x: real): (n: int)
    ensures x >= 0.0 ==> 0 <= n && n as real <= x < n as real + 1.0
    ensures x < 0.0 ==> n <= 0 && n as real - 1.0 < x <= n as real
  {
    if x >= 0.0 then x.Floor else -((-x).Floor)
  }

  /** The filter-mode guard accepts exactly the values strictly between -1 and 3. */
  lemma ModeGuard(x: real)
    ensures 0 <= Trunc(x) <= 2 <==> -1.0 < x < 3.0
  {
  }
}
