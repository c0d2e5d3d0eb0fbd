/**
 This module models the USB receive callback of the firmware: a byte-at-a-time line framer
 over a fixed 128-character buffer, a write position and a "line ready" flag.

 A newline or a semicolon ends a line: a NUL is written at the write position, the ready flag is
 raised and the position rewinds to 0. Any other byte is appended while fewer than 127 are
 buffered; the byte that would be the 128th is dropped and the position rewinds to 0.
 */
module Framer {

  /** A byte as delivered by the USB stack. */
  newtype byte = x: int | 0 <= x < 256

  /** Size of the receive buffer. */
  const BufferSize: nat := 128
  /** Content bytes are appended only while fewer than this many are buffered. */
  const MaxContent: nat := 127
  const NUL: char := '\0'

  /** The byte read as a character of the buffer. */
  function ToChar(b: byte): char
  {
    (b as int) as char
  }

  /** The characters of a byte sequence, in order. */
  function Chars(s: seq<byte>): (r: seq<char>)
    ensures |r| == |s|
    ensures forall i :: 0 <= i < |s| ==> r[i] == ToChar(s[i])
  {
    seq(|s|, i requires 0 <= i < |s| => ToChar(s[i]))
  }

  /** The two line terminators. */
  predicate IsDelimiter(c: char)
  {
    c == '\n' || c == ';'
  }

  /** No byte of `s` is a terminator. */
  predicate NoDelimiter(s: seq<byte>)
  {
    forall i :: 0 <= i < |s| ==> !IsDelimiter(ToChar(s[i]))
  }

  /** The buffer, the write position and the ready flag shared with the main loop. */
  datatype Framer = Framer(buf: seq<char>, pos: int, ready: bool)

  /** The shape every reachable state has: a 128-cell buffer and a position in 0..127. */
  predicate Inv(f: Framer)
  {
    |f.buf| == BufferSize && 0 <= f.pos <= MaxContent
  }

  /** Inv, plus: the last cell always holds NUL and no cell ever holds a terminator. */
  predicate Valid(f: Framer)
  {
    && Inv(f)
    && f.buf[MaxContent] == NUL
    && forall i :: 0 <= i < |f.buf| ==> !IsDelimiter(f.buf[i])
  }

  /** The zero-initialised buffer, position 0 and a lowered flag. */
  function InitialFramer(): (f: Framer)
    ensures Valid(f) && f.pos == 0 && !f.ready
  {
    Framer(seq(BufferSize, _ => NUL), 0, false)
  }

  /** The characters buffered since the last terminator (or since the last overflow). */
  function Pending(f: Framer): seq<char>
    requires Inv(f)
  {
    f.buf[..f.pos]
  }

  /** One iteration of the receive loop: the effect of one byte. */
  function Step(f: Framer, b: byte): (r: Framer)
    requires Inv(f)
    ensures Inv(r)
    ensures Valid(f) ==> Valid(r)
    // at most the cell at the old position is written
    ensures forall i :: 0 <= i < BufferSize && i != f.pos ==> r.buf[i] == f.buf[i]
    // a terminator writes NUL at the position, raises the flag and rewinds
    ensures IsDelimiter(ToChar(b)) ==> r.buf[f.pos] == NUL && r.ready && r.pos == 0
    // any other byte leaves the flag alone
    ensures !IsDelimiter(ToChar(b)) ==> r.ready == f.ready
    // and is appended while there is room ...
    ensures !IsDelimiter(ToChar(b)) && f.pos < MaxContent ==>
              Pending(r) == Pending(f) + [ToChar(b)]
    // ... or is dropped, discarding what was buffered
    ensures !IsDelimiter(ToChar(b)) && f.pos == MaxContent ==> r.buf == f.buf && r.pos == 0
  {
    var c := ToChar(b);
    if IsDelimiter(c) then
      f.(buf := f.buf[f.pos := NUL], ready := true, pos := 0)
    else if f.pos < MaxContent then
      f.(buf := f.buf[f.pos := c], pos := f.pos + 1)
    else
      f.(pos := 0)
  }

  /** The effect of a sequence of bytes: a left fold of Step. */
  function Feed(f: Framer, s: seq<byte>): (r: Framer)
    requires Inv(f)
    ensures Inv(r)
    ensures Valid(f) ==> Valid(r)
    decreases |s|
  {
    if s == [] then f else Feed(Step(f, s[0]), s[1..])
  }

  /** The receive callback: the loop over the `len` bytes of one USB packet. */
  method UsbCallback(f: Framer, input: seq<byte>) returns (r: Framer)
    requires Inv(f)
    ensures Inv(r)
    ensures r == Feed(f, input)
  {
    var buf := f.buf;
    var pos := f.pos;
    var ready := f.ready;
    var i := 0;
    while i < |input|
      invariant 0 <= i <= |input|
      invariant |buf| == BufferSize && 0 <= pos <= MaxContent
      invariant Framer(buf, pos, ready) == Feed(f, input[..i])
    {
      var c := ToChar(input[i]);
      if c == '\n' || c == ';' {
        buf := buf[pos := NUL];
        ready := true;
        pos := 0;
      } else {
        if pos < MaxContent {
          buf := buf[pos := c];
          pos := pos + 1;
        } else {
          pos := 0;
        }
      }
      FeedSnoc(f, input[..i], input[i]);
      assert input[..i + 1] == input[..i] + [input[i]];
      i := i + 1;
    }
    assert input[..|input|] == input;
    r := Framer(buf, pos, ready);
  }

  /** Feeding `a + b` is feeding `a`, then `b`. */
  lemma {:induction false} FeedAppend(f: Framer, a: seq<byte>, b: seq<byte>)
    requires Inv(f)
    ensures Feed(f, a + b) == Feed(Feed(f, a), b)
    decreases |a|
  {
    if a == [] {
      assert a + b == b;
    } else {
      assert (a + b)[0] == a[0];
      assert (a + b)[1..] == a[1..] + b;
      FeedAppend(Step(f, a[0]), a[1..], b);
    }
  }

  /** Feeding one more byte is one more Step. */
  lemma FeedSnoc(f: Framer, s: seq<byte>, b: byte)
    requires Inv(f)
    ensures Feed(f, s + [b]) == Step(Feed(f, s), b)
  {
    FeedAppend(f, s, [b]);
    assert Feed(Feed(f, s), [b]) == Feed(Step(Feed(f, s), b), []);
  }

  /** The concatenation of a sequence of packets. */
  function Flatten(packets: seq<seq<byte>>): (s: seq<byte>)
    decreases |packets|
  {
    if packets == [] then [] else packets[0] + Flatten(packets[1..])
  }

  /** One callback per packet, in arrival order. */
  function FeedPackets(f: Framer, packets: seq<seq<byte>>): (r: Framer)
    requires Inv(f)
    ensures Inv(r)
    decreases |packets|
  {
    if packets == [] then f else FeedPackets(Feed(f, packets[0]), packets[1..])
  }

  /** How a byte stream is split across callbacks does not change the resulting state. */
  lemma {:induction false} SplitIndependent(f: Framer, packets: seq<seq<byte>>)
    requires Inv(f)
    ensures FeedPackets(f, packets) == Feed(f, Flatten(packets))
    decreases |packets|
  {
    if packets != [] {
      SplitIndependent(Feed(f, packets[0]), packets[1..]);
      FeedAppend(f, packets[0], Flatten(packets[1..]));
    }
  }

  /**
   Closed form for terminator-free input: with k = pos + |s|, the position becomes k mod 128
   and the buffered content is what follows the last dropped byte (every 128th byte is dropped).
   */
  lemma {:induction false} FeedNoDelimiter(f: Framer, s: seq<byte>)
    requires Inv(f)
    requires NoDelimiter(s)
    ensures Feed(f, s).pos == (f.pos + |s|) % BufferSize
    ensures Feed(f, s).ready == f.ready
    ensures Pending(Feed(f, s))
              == (Pending(f) + Chars(s))[f.pos + |s| - (f.pos + |s|) % BufferSize..]
    decreases |s|
  {
    if s == [] {
      assert Pending(f) + Chars(s) == Pending(f);
    } else {
      var s0 := s[..|s| - 1];
      var b := s[|s| - 1];
      assert s == s0 + [b];
      assert NoDelimiter(s0) by {
        forall i | 0 <= i < |s0| ensures !IsDelimiter(ToChar(s0[i])) {
          assert s0[i] == s[i];
        }
      }
      FeedNoDelimiter(f, s0);
      FeedSnoc(f, s0, b);
      var all := Pending(f) + Chars(s0);
      assert Chars(s) == Chars(s0) + [ToChar(b)];
      assert Pending(f) + Chars(s) == all + [ToChar(b)];
      StepClosedForm(Feed(f, s0), f.pos + |s0|, all, b);
    }
  }

  /** The inductive step of FeedNoDelimiter: one more non-terminator keeps the closed form. */
  lemma StepClosedForm(g: Framer, k: nat, all: seq<char>, b: byte)
    requires Inv(g) && !IsDelimiter(ToChar(b))
    requires |all| == k && g.pos == k % BufferSize
    requires Pending(g) == all[k - k % BufferSize..]
    ensures Step(g, b).pos == (k + 1) % BufferSize
    ensures Pending(Step(g, b)) == (all + [ToChar(b)])[k + 1 - (k + 1) % BufferSize..]
  {
    var m := k - k % BufferSize;
    if g.pos < MaxContent {
      ModSucc(k);
      assert (all + [ToChar(b)])[m..] == all[m..] + [ToChar(b)];
    } else {
      ModWrap(k);
    }
  }

  lemma ModSucc(k: nat)
    requires k % 128 < 127
    ensures (k + 1) % 128 == k % 128 + 1
  {
  }

  lemma ModWrap(k: nat)
    requires k % 128 == 127
    ensures (k + 1) % 128 == 0
  {
  }

  /**
   A line of at most 127 terminator-free bytes, fed from position 0 and followed by a terminator,
   is delivered whole: the buffer holds the line followed by NUL, the flag is raised and the
   position is back at 0.
   */
  lemma DeliverLine(f: Framer, line: seq<byte>, d: byte)
    requires Inv(f) && f.pos == 0
    requires |line| <= MaxContent && NoDelimiter(line)
    requires IsDelimiter(ToChar(d))
    ensures Feed(f, line + [d]).ready
    ensures Feed(f, line + [d]).pos == 0
    ensures Feed(f, line + [d]).buf[..|line|] == Chars(line)
    ensures Feed(f, line + [d]).buf[|line|] == NUL
  {
    FeedSnoc(f, line, d);
    FeedNoDelimiter(f, line);
    var g := Feed(f, line);
    assert g.pos == |line|;
    assert Pending(f) + Chars(line) == Chars(line);
    var r := Step(g, d);
    assert r.buf[..|line|] == g.buf[..|line|];
  }

  /**
   A terminator-free run longer than the buffer, fed from position 0, keeps only its tail: the
   bytes after the last dropped one (the dropped ones sit at every index 127 mod 128).
   */
  lemma OverflowKeepsTail(f: Framer, s: seq<byte>)
    requires Inv(f) && f.pos == 0
    requires NoDelimiter(s)
    ensures Pending(Feed(f, s)) == Chars(s)[|s| - |s| % BufferSize..]
  {
    FeedNoDelimiter(f, s);
    assert Pending(f) + Chars(s) == Chars(s);
  }

  /** The C string held by a buffer: the characters before its first NUL. */
  function CString(s: seq<char>): (r: seq<char>)
    ensures |r| <= |s| && r == s[..|r|]
    ensures NUL !in r
    ensures |r| < |s| ==> s[|r|] == NUL
    decreases |s|
  {
    if s == [] || s[0] == NUL then [] else [s[0]] + CString(s[1..])
  }

  /** A NUL-terminated prefix without inner NULs is exactly the C string read from the buffer. */
  lemma CStringOfTerminated(s: seq<char>, n: nat)
    requires n < |s| && s[n] == NUL
    requires NUL !in s[..n]
    ensures CString(s) == s[..n]
  {
  }

  /** In a Valid state the C string ends inside the buffer (the last cell is NUL). */
  lemma CStringBounded(f: Framer)
    requires Valid(f)
    ensures |CString(f.buf)| < BufferSize
  {
  }
}
