/**
 This module models the state the USB receive callback and the main loop share (the receive
 buffer, its position and ready flag, and the parameter record) and the main loop's serial
 handler, ProcessSerial. The callback and the handler are sequential steps over that state.
 */
module Firmware {
  import opened Wrappers
  import opened Params
  import opened Framer
  import opened Dispatch

  datatype State = State(framer: Framer, params: Params)

  /** Everything every reachable state satisfies. */
  ghost predicate Good(s: State)
  {
    Valid(s.framer) && InRange(s.params)
  }

  /** The state at power-up. */
  function Boot(): (s: State)
    ensures Good(s) && s.framer.pos == 0 && !s.framer.ready
  {
    State(InitialFramer(), InitialParams())
  }

  /** One USB receive callback with the bytes of one packet. */
  function Receive(s: State, packet: seq<byte>): (r: State)
    requires Inv(s.framer)
    ensures Inv(r.framer) && r.params == s.params
    ensures Good(s) ==> Good(r)
  {
    s.(framer := Feed(s.framer, packet))
  }

  /**
   The main loop's handler: when a line is ready, lower the flag and apply the C string in the
   buffer to the parameter record. The buffer and its position are not touched.
   */
  function ProcessSerial(s: State, scanFloat: FloatScanner): (r: State)
    requires Inv(s.framer)
    ensures !s.framer.ready ==> r == s
    ensures s.framer.ready ==>
              && !r.framer.ready
              && r.framer.buf == s.framer.buf
              && r.framer.pos == s.framer.pos
              && r.params == Apply(s.params, CString(s.framer.buf), scanFloat)
    ensures Good(s) ==> Good(r)
  {
    if s.framer.ready then
      State(s.framer.(ready := false), Apply(s.params, CString(s.framer.buf), scanFloat))
    else
      s
  }

  /** A second call with no packet in between changes nothing. */
  lemma ProcessSerialIdempotent(s: State, scanFloat: FloatScanner)
    requires Inv(s.framer)
    ensures ProcessSerial(ProcessSerial(s, scanFloat), scanFloat) == ProcessSerial(s, scanFloat)
  {
  }

  /** What can happen to the shared state: a packet arrives, or the main loop polls. */
  datatype Event = Packet(bytes: seq<byte>) | Poll

  /** The state after a sequence of events, in order. */
  function Run(s: State, events: seq<Event>, scanFloat: FloatScanner): (r: State)
    requires Inv(s.framer)
    ensures Inv(r.framer)
    decreases |events|
  {
    if events == [] then s
    else
      var next := match events[0]
        case Packet(bytes) => Receive(s, bytes)
        case Poll => ProcessSerial(s, scanFloat);
      Run(next, events[1..], scanFloat)
  }

  /**
   Every state reachable from power-up is Good: the position stays in 0..127 (so both buffer
   writes stay in bounds), the last cell stays NUL (so the C string read by `sscanf` ends inside
   the buffer), no terminator is ever stored, and every control stays within its range.
   */
  lemma {:induction false} RunKeepsGood(s: State, events: seq<Event>, scanFloat: FloatScanner)
    requires Good(s)
    ensures Good(Run(s, events, scanFloat))
    ensures |CString(Run(s, events, scanFloat).framer.buf)| < BufferSize
    decreases |events|
  {
    if events == [] {
      CStringBounded(s.framer);
    } else {
      var next := match events[0]
        case Packet(bytes) => Receive(s, bytes)
        case Poll => ProcessSerial(s, scanFloat);
      RunKeepsGood(next, events[1..], scanFloat);
    }
  }

  /**
   End to end: a line of at most 127 bytes with no terminator and no NUL, sent from a state whose
   position is 0 (power-up, or just after a terminator) and followed by one terminator, is
   applied to the record exactly as Apply says on the next poll.
   */
  lemma SendLine(s: State, line: seq<byte>, d: byte, scanFloat: FloatScanner)
    requires Inv(s.framer) && s.framer.pos == 0
    requires |line| <= MaxContent && NoDelimiter(line) && NUL !in Chars(line)
    requires IsDelimiter(ToChar(d))
    ensures ProcessSerial(Receive(s, line + [d]), scanFloat).params
              == Apply(s.params, Chars(line), scanFloat)
    ensures !ProcessSerial(Receive(s, line + [d]), scanFloat).framer.ready
  {
    DeliverLine(s.framer, line, d);
    var f := Feed(s.framer, line + [d]);
    assert f.buf[..|line|] == Chars(line);
    CStringOfTerminated(f.buf, |line|);
  }

  /**
   A `name:text` command for a known control, followed by a terminator, sets that control to the
   clamped value and leaves every other control and both filter modes as they were.
   */
  lemma SetControlCommand(s: State, line: seq<byte>, d: byte, name: string, text: string,
                          k: Knob, v: real, scanFloat: FloatScanner)
    requires Inv(s.framer) && s.framer.pos == 0
    requires |line| <= MaxContent && NoDelimiter(line) && NUL !in Chars(line)
    requires IsDelimiter(ToChar(d))
    requires Chars(line) == name + [':'] + text
    requires 1 <= |name| <= MaxNameLength && ':' !in name
    requires Lookup(name) == Some(SetKnob(k)) && scanFloat(text) == Some(v)
    ensures Get(ProcessSerial(Receive(s, line + [d]), scanFloat).params, k) == Clamp(v, Lo(k), Hi(k))
    ensures forall j :: j != k ==>
              Get(ProcessSerial(Receive(s, line + [d]), scanFloat).params, j) == Get(s.params, j)
    ensures forall ch ::
              Mode(ProcessSerial(Receive(s, line + [d]), scanFloat).params, ch) == Mode(s.params, ch)
  {
    SendLine(s, line, d, scanFloat);
    ScanFormatted(name, text, scanFloat);
    assert Parse(Chars(line), scanFloat) == Some((SetKnob(k), v));
  }

  /**
   The two-terminator form `name:value;` followed by a newline, received in one packet, leaves
   the record unchanged: the semicolon delivers the line, but the newline then writes NUL over
   its first character, so the handler reads an empty string.
   */
  lemma TerminatorPairDropsCommand(s: State, line: seq<byte>, d1: byte, d2: byte,
                                   scanFloat: FloatScanner)
    requires Good(s) && s.framer.pos == 0
    requires |line| <= MaxContent && NoDelimiter(line)
    requires IsDelimiter(ToChar(d1)) && IsDelimiter(ToChar(d2))
    ensures ProcessSerial(Receive(s, line + [d1, d2]), scanFloat).params == s.params
  {
    assert line + [d1, d2] == (line + [d1]) + [d2];
    FeedSnoc(s.framer, line + [d1], d2);
    DeliverLine(s.framer, line, d1);
    var f := Feed(s.framer, line + [d1, d2]);
    assert f.buf[0] == NUL;
    assert CString(f.buf) == [];
    EmptyLineIgnored(s.params, scanFloat);
  }

  /** With a poll between the two terminators the same command is applied. */
  lemma TerminatorPairWithPoll(s: State, line: seq<byte>, d1: byte, d2: byte,
                               scanFloat: FloatScanner)
    requires Inv(s.framer) && s.framer.pos == 0
    requires |line| <= MaxContent && NoDelimiter(line) && NUL !in Chars(line)
    requires IsDelimiter(ToChar(d1)) && IsDelimiter(ToChar(d2))
    ensures Run(s, [Packet(line + [d1]), Poll, Packet([d2]), Poll], scanFloat).params
              == Apply(s.params, Chars(line), scanFloat)
  {
    SendLine(s, line, d1, scanFloat);
    DeliverLine(s.framer, line, d1);
    var s1 := ProcessSerial(Receive(s, line + [d1]), scanFloat);
    assert s1.framer.pos == 0;
    var s2 := Receive(s1, [d2]);
    assert Feed(s1.framer, [d2]) == Step(s1.framer, d2);
    assert s2.framer.buf[0] == NUL;
    EmptyLineIgnored(s2.params, scanFloat);
    assert Run(s, [Packet(line + [d1]), Poll, Packet([d2]), Poll], scanFloat)
        == Run(s1, [Packet([d2]), Poll], scanFloat);
    assert Run(s1, [Packet([d2]), Poll], scanFloat) == Run(s2, [Poll], scanFloat);
  }
}
