/**
 This module models the parse-and-apply half of the serial command handler: the line is split
 as `name:value` by the conversion `%63[^:]:%f` (section 7.21.6.2 of the C11 standard,
 `fscanf`), the name selects one parameter through a chain of string comparisons, and the value
 is clamped to that parameter's range. The text-to-number conversion of `%f` is an oracle
 supplied by the caller.
 */
module Dispatch {
  import opened Wrappers
  import opened Params

  /** What a command may set: a real-valued control or a channel's filter mode. */
  datatype Target = SetKnob(knob: Knob) | SetMode(ch: Channel)

  /** The longest name `%63[^:]` stores. */
  const MaxNameLength: nat := 63

  /** The oracle for `%f`: the value of the number at the start of the text, if there is one. */
  type FloatScanner = string -> Option<real>

  /** The wire name of each target (the source accepts exactly these spellings). */
  function Name(t: Target): string
  {
    match t
    case SetKnob(k) => KnobName(k)
    case SetMode(Ch1) => "ch1_filter_mode"
    case SetMode(Ch2) => "ch2_filter_mode"
  }

  function KnobName(k: Knob): string
  {
    match k
    case Gain(Ch1) => "ch1_gain"
    case Drive(Ch1) => "ch1_drive"
    case FilterFreq(Ch1) => "ch1_filter_freq"
    case FilterRes(Ch1) => "ch1_filter_res"
    case DelayTime(Ch1) => "ch1_delay_time"
    case DelayFeedback(Ch1) => "ch1_delay_fb"
    case DelayMix(Ch1) => "ch1_delay_mix"
    case ChorusDepth(Ch1) => "ch1_chorus_depth"
    case ChorusRate(Ch1) => "ch1_chorus_rate"
    case Gain(Ch2) => "ch2_gain"
    case Drive(Ch2) => "ch2_drive"
    case FilterFreq(Ch2) => "ch2_filter_freq"
    case FilterRes(Ch2) => "ch2_filter_res"
    case DelayTime(Ch2) => "ch2_delay_time"
    case DelayFeedback(Ch2) => "ch2_delay_fb"
    case DelayMix(Ch2) => "ch2_delay_mix"
    case ChorusDepth(Ch2) => "ch2_chorus_depth"
    case ChorusRate(Ch2) => "ch2_chorus_rate"
    case CrossModAmt => "cross_mod"
    case CrossBleed => "cross_bleed"
    case StereoWidth => "stereo_width"
    case ReverbMix => "reverb_mix"
    case ReverbTime => "reverb_time"
    case MasterGain => "master_gain"
  }

  /**
   The comparison chain: the target whose name equals `name`, if any. The chain is written in
   the source's order, in three links (channel 1, channel 2, cross-channel and master).
   */
  function Lookup(name: string): (r: Option<Target>)
    ensures r.Some? ==> Name(r.value) == name
  {
    match LookupChannel1(name)
    case Some(t) => Some(t)
    case None =>
      match LookupChannel2(name)
      case Some(t) => Some(t)
      case None => LookupMaster(name)
  }

  function LookupChannel1(name: string): (r: Option<Target>)
    ensures r.Some? ==> Name(r.value) == name
  {
    if name == "ch1_gain" then Some(SetKnob(Gain(Ch1)))
    else if name == "ch1_drive" then Some(SetKnob(Drive(Ch1)))
    else if name == "ch1_filter_freq" then Some(SetKnob(FilterFreq(Ch1)))
    else if name == "ch1_filter_res" then Some(SetKnob(FilterRes(Ch1)))
    else if name == "ch1_delay_time" then Some(SetKnob(DelayTime(Ch1)))
    else if name == "ch1_delay_fb" then Some(SetKnob(DelayFeedback(Ch1)))
    else if name == "ch1_delay_mix" then Some(SetKnob(DelayMix(Ch1)))
    else if name == "ch1_chorus_depth" then Some(SetKnob(ChorusDepth(Ch1)))
    else if name == "ch1_chorus_rate" then Some(SetKnob(ChorusRate(Ch1)))
    else if name == "ch1_filter_mode" then Some(SetMode(Ch1))
    else None
  }

  function LookupChannel2(name: string): (r: Option<Target>)
    ensures r.Some? ==> Name(r.value) == name
  {
    if name == "ch2_gain" then Some(SetKnob(Gain(Ch2)))
    else if name == "ch2_drive" then Some(SetKnob(Drive(Ch2)))
    else if name == "ch2_filter_freq" then Some(SetKnob(FilterFreq(Ch2)))
    else if name == "ch2_filter_res" then Some(SetKnob(FilterRes(Ch2)))
    else if name == "ch2_delay_time" then Some(SetKnob(DelayTime(Ch2)))
    else if name == "ch2_delay_fb" then Some(SetKnob(DelayFeedback(Ch2)))
    else if name == "ch2_delay_mix" then Some(SetKnob(DelayMix(Ch2)))
    else if name == "ch2_chorus_depth" then Some(SetKnob(ChorusDepth(Ch2)))
    else if name == "ch2_chorus_rate" then Some(SetKnob(ChorusRate(Ch2)))
    else if name == "ch2_filter_mode" then Some(SetMode(Ch2))
    else None
  }

  function LookupMaster(name: string): (r: Option<Target>)
    ensures r.Some? ==> Name(r.value) == name
  {
    if name == "cross_mod" then Some(SetKnob(CrossModAmt))
    else if name == "cross_bleed" then Some(SetKnob(CrossBleed))
    else if name == "stereo_width" then Some(SetKnob(StereoWidth))
    else if name == "reverb_mix" then Some(SetKnob(ReverbMix))
    else if name == "reverb_time" then Some(SetKnob(ReverbTime))
    else if name == "master_gain" then Some(SetKnob(MasterGain))
    else None
  }

  /** Every target is reachable by its wire name; with Lookup's contract the table is a bijection. */
  lemma LookupName(t: Target)
    ensures Lookup(Name(t)) == Some(t)
  {
    match t
    case SetMode(ch) =>
    case SetKnob(k) =>
      if k.Gain? || k.Drive? || k.FilterFreq? {
        LookupGainDriveFreq(k);
      } else if k.FilterRes? || k.DelayTime? || k.DelayFeedback? {
        LookupResTimeFeedback(k);
      } else if k.DelayMix? || k.ChorusDepth? || k.ChorusRate? {
        LookupMixDepthRate(k);
      } else {
        LookupShared(k);
      }
  }

  // LookupName is split in groups of controls to keep each chain evaluation small.

  lemma LookupGainDriveFreq(k: Knob)
    requires k.Gain? || k.Drive? || k.FilterFreq?
    ensures Lookup(KnobName(k)) == Some(SetKnob(k))
  {
  }

  lemma LookupResTimeFeedback(k: Knob)
    requires k.FilterRes? || k.DelayTime? || k.DelayFeedback?
    ensures Lookup(KnobName(k)) == Some(SetKnob(k))
  {
  }

  lemma LookupMixDepthRate(k: Knob)
    requires k.DelayMix? || k.ChorusDepth? || k.ChorusRate?
    ensures Lookup(KnobName(k)) == Some(SetKnob(k))
  {
  }

  lemma LookupShared(k: Knob)
    requires k.CrossModAmt? || k.CrossBleed? || k.StereoWidth?
          || k.ReverbMix? || k.ReverbTime? || k.MasterGain?
    ensures Lookup(KnobName(k)) == Some(SetKnob(k))
  {
    if k.CrossModAmt? || k.CrossBleed? || k.StereoWidth? {
      LookupCrossBleedWidth(k);
    } else {
      LookupReverbMaster(k);
    }
  }

  lemma LookupCrossBleedWidth(k: Knob)
    requires k.CrossModAmt? || k.CrossBleed? || k.StereoWidth?
    ensures Lookup(KnobName(k)) == Some(SetKnob(k))
  {
  }

  lemma LookupReverbMaster(k: Knob)
    requires k.ReverbMix? || k.ReverbTime? || k.MasterGain?
    ensures Lookup(KnobName(k)) == Some(SetKnob(k))
  {
  }

  /** The variable names of the record are not wire names: only the short aliases are accepted. */
  lemma AliasesOnly()
    ensures Lookup("ch1_delay_feedback") == None && Lookup("ch2_delay_feedback") == None
    ensures Lookup("cross_mod_amt") == None
  {
  }

  /** How many characters `%63[^:]` consumes: up to 63, stopping at a colon or the end. */
  function NameSpan(line: string): (n: nat)
    ensures n <= |line| && n <= MaxNameLength
    ensures forall i :: 0 <= i < n ==> line[i] != ':'
    ensures n < |line| && n < MaxNameLength ==> line[n] == ':'
  {
    SpanFrom(line, 0)
  }

  function SpanFrom(line: string, i: nat): (n: nat)
    requires i <= |line| && i <= MaxNameLength
    requires forall j :: 0 <= j < i ==> line[j] != ':'
    ensures i <= n <= |line| && n <= MaxNameLength
    ensures forall j :: 0 <= j < n ==> line[j] != ':'
    ensures n < |line| && n < MaxNameLength ==> line[n] == ':'
    decreases MaxNameLength - i
  {
    if i == |line| || i == MaxNameLength || line[i] == ':' then i else SpanFrom(line, i + 1)
  }

  /**
   The whole conversion `%63[^:]:%f`: a non-empty name, then a literal colon, then a number.
   None stands for every return value other than 2 (a conversion or input failure).
   */
  function Scan(line: string, scanFloat: FloatScanner): (r: Option<(string, real)>)
    ensures r.Some? ==>
              var name := r.value.0;
              && 1 <= |name| <= MaxNameLength
              && ':' !in name
              && |name| < |line|
              && line == name + [':'] + line[|name| + 1..]
              && scanFloat(line[|name| + 1..]) == Some(r.value.1)
  {
    var n := NameSpan(line);
    if n == 0 || n == |line| || line[n] != ':' then None
    else
      match scanFloat(line[n + 1..])
      case None => None
      case Some(v) => Some((line[..n], v))
  }

  /** Conversely, every well-formed `name:text` line is split at its first colon. */
  lemma ScanFormatted(name: string, text: string, scanFloat: FloatScanner)
    requires 1 <= |name| <= MaxNameLength && ':' !in name
    ensures Scan(name + [':'] + text, scanFloat)
              == (match scanFloat(text)
                  case None => None
                  case Some(v) => Some((name, v)))
  {
    var line := name + [':'] + text;
    var n := NameSpan(line);
    assert forall i :: 0 <= i < |name| ==> line[i] == name[i];
    assert line[|name|] == ':';
    assert n == |name|;
    assert line[n + 1..] == text;
    assert line[..n] == name;
  }

  /** A name of more than 63 non-colon characters never matches. */
  lemma LongNameRejected(line: string, scanFloat: FloatScanner)
    requires |line| > MaxNameLength
    requires forall i :: 0 <= i <= MaxNameLength ==> line[i] != ':'
    ensures Scan(line, scanFloat) == None
  {
  }

  /** The command a line carries: its target and the number read, if both are recognised. */
  function Parse(line: string, scanFloat: FloatScanner): Option<(Target, real)>
  {
    match Scan(line, scanFloat)
    case None => None
    case Some((name, v)) =>
      match Lookup(name)
      case None => None
      case Some(t) => Some((t, v))
  }

  /** The value a mode command stores, or None when `(int)val` is outside 0..2. */
  function ModeFor(v: real): (m: Option<FilterMode>)
    ensures m.Some? <==> -1.0 < v < 3.0
    ensures m.Some? ==> ModeValue(m.value) == Trunc(v)
  {
    ModeGuard(v);
    var n := Trunc(v);
    if 0 <= n <= 2 then Some(ModeOf(n)) else None
  }

  /**
   The effect of one parsed command on the record: no command changes nothing; a control
   command changes that control alone, to the value clamped to its range; a mode command
   changes that channel's mode alone, and only when the guard accepts the value.
   */
  function ApplyCommand(p: Params, cmd: Option<(Target, real)>): (r: Params)
    ensures cmd.None? ==> r == p
    ensures cmd.Some? && cmd.value.0.SetKnob? ==>
              var k := cmd.value.0.knob;
              && Get(r, k) == Clamp(cmd.value.1, Lo(k), Hi(k))
              && (forall j :: j != k ==> Get(r, j) == Get(p, j))
              && (forall ch :: Mode(r, ch) == Mode(p, ch))
    ensures cmd.Some? && cmd.value.0.SetMode? ==>
              var ch := cmd.value.0.ch;
              && Mode(r, ch) == ModeFor(cmd.value.1).GetOr(Mode(p, ch))
              && (forall other :: other != ch ==> Mode(r, other) == Mode(p, other))
              && (forall j :: Get(r, j) == Get(p, j))
    ensures InRange(p) ==> InRange(r)
  {
    match cmd
    case None => p
    case Some((SetKnob(k), v)) => With(p, k, Clamp(v, Lo(k), Hi(k)))
    case Some((SetMode(ch), v)) =>
      match ModeFor(v)
      case None => p
      case Some(m) => WithMode(p, ch, m)
  }

  /** The effect of one line: a line that does not parse to a known command changes nothing. */
  function Apply(p: Params, line: string, scanFloat: FloatScanner): (r: Params)
    ensures Parse(line, scanFloat).None? ==> r == p
    ensures InRange(p) ==> InRange(r)
  {
    ApplyCommand(p, Parse(line, scanFloat))
  }

  /** An empty line (what `sscanf` sees after a bare terminator) changes nothing. */
  lemma EmptyLineIgnored(p: Params, scanFloat: FloatScanner)
    ensures Apply(p, [], scanFloat) == p
  {
  }
}
