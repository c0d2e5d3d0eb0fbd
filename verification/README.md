# DaisyGuitar serial control core, modelled in Dafny

The DaisyGuitar firmware is a two-channel guitar-effects program for the Daisy Seed board. The
host changes effect parameters over USB serial by sending text commands such as
`ch1_gain:1.5`. This project models the two sequential parts of that path:

- **The USB receive callback** (`UsbCallback`) frames lines. It handles one byte at a time over a
  128-character buffer, a write position and a "line ready" flag. A newline or a semicolon writes
  NUL at the position, raises the flag and rewinds the position. Other bytes are appended while
  fewer than 127 are buffered. The byte that would be the 128th is dropped, and the position
  rewinds to 0.
- **The main-loop handler** (`ProcessSerial`) runs only while the flag is raised, and it always
  lowers the flag. It splits the buffered C string with `sscanf(…, "%63[^:]:%f", …)`. Section
  7.21.6.2 of the C11 standard defines that conversion. The handler then finds the parameter
  through a chain of `strcmp`s and stores the value clamped to that parameter's range. A
  filter-mode command instead truncates the value to `int` and stores it only if it is 0, 1 or 2.

Modules:

- `Wrappers`: `Option`.
- `Framer`: the callback as a pure `Step`/`Feed` fold and as an imperative loop
  (`UsbCallback`), the buffer invariants, and the C-string view of the buffer.
- `Params`: the parameter record, per-control ranges, `Clamp` (`fclamp`) and `Trunc` (the
  `(int)` cast).
- `Dispatch`: the `%63[^:]:%f` split, the name table and `Apply`.
- `Firmware`: the shared state, `ProcessSerial`, arbitrary interleavings of packets and polls,
  and end-to-end lemmas.

Two behaviours of the code as written follow from the proofs:

- **`;` followed by a newline in one packet loses the command.** The source's own comment gives
  the command format as `param:value;` plus a newline. If both terminators arrive in one packet,
  the semicolon delivers the line. The newline then writes NUL over its first character, so
  `ProcessSerial` reads an empty string and changes nothing (`TerminatorPairDropsCommand`). If a
  poll falls between the two terminators, the command is applied (`TerminatorPairWithPoll`).
- **An overlong line keeps its tail.** After an overflow, later bytes are buffered again from
  position 0, so the tail of an overlong line is delivered as a line (`OverflowKeepsTail`).

The host-side DFU flashing client is not part of this model. Its source is not among the
modelled files.

## Model

| member | source | states |
|---|---|---|
| Framer.InitialFramer | firmware/DaisyGuitar.cpp:75-77 | The zero-initialised buffer, position 0 and the lowered flag already satisfy every buffer invariant. |
| Framer.Step | firmware/DaisyGuitar.cpp:245-264 | One byte keeps the position in 0..127 and writes at most the cell at the old position. A terminator writes NUL there, raises the flag and rewinds. Another byte is appended to the pending line while fewer than 127 are buffered. Otherwise it is dropped: the buffer is unchanged and the position rewinds. |
| Framer.Feed | firmware/DaisyGuitar.cpp:243-265 | Folding Step over any byte sequence keeps the position in range, keeps the last cell NUL and never stores a terminator. |
| Framer.UsbCallback | firmware/DaisyGuitar.cpp:241-266 | The imperative loop over the packet performs only in-bounds buffer writes and ends in exactly the state of the fold `Feed`. |
| Framer.FeedAppend | firmware/DaisyGuitar.cpp:243-265 | Feeding `a + b` equals feeding `a` and then `b`. |
| Framer.SplitIndependent | firmware/DaisyGuitar.cpp:241-266 | One callback per packet gives the same state as a single callback on all the bytes, however the stream is split. |
| Framer.FeedNoDelimiter | firmware/DaisyGuitar.cpp:255-263 | For terminator-free input, the position becomes (old position + count) mod 128. The pending content is everything after the last dropped byte, in arrival order. The flag is untouched. |
| Framer.DeliverLine | firmware/DaisyGuitar.cpp:247-258 | A line of at most 127 terminator-free bytes, sent from position 0 and followed by a terminator, ends up in the buffer exactly, followed by NUL. The flag is raised and the position is 0. |
| Framer.OverflowKeepsTail | firmware/DaisyGuitar.cpp:259-263 | A terminator-free run from position 0 keeps only the bytes after its last multiple of 128. The partial line before each dropped byte is discarded. |
| Framer.CString | firmware/DaisyGuitar.cpp:289 | The string `sscanf` reads is the buffer prefix before the first NUL. It contains no NUL and is followed by one if it is shorter than the buffer. |
| Framer.CStringOfTerminated | firmware/DaisyGuitar.cpp:249 | A NUL-terminated prefix without inner NULs is exactly the string the handler reads. |
| Framer.CStringBounded | firmware/DaisyGuitar.cpp:75 | In every valid state the string `sscanf` reads ends inside the 128-character buffer. |
| Params.InitialParams | firmware/DaisyGuitar.cpp:36-72 | The start-up parameter values already lie within every control's clamp range. |
| Params.ModeValue | firmware/DaisyGuitar.cpp:70 | The filter-mode enum values are 0, 1 and 2. |
| Params.ModeOf | firmware/DaisyGuitar.cpp:303 | Casting 0..2 to the enum gives the mode whose value is that integer. |
| Params.RangesNonEmpty | firmware/DaisyGuitar.cpp:292-327 | Every control's clamp range is non-empty. |
| Params.With | firmware/DaisyGuitar.cpp:292-327 | Setting a control makes that control read the new value. Every other control and both filter modes keep their values. |
| Params.WithMode | firmware/DaisyGuitar.cpp:316-319 | Setting a channel's filter mode changes that mode alone. No control and not the other channel's mode change. |
| Params.Extensionality | firmware/DaisyGuitar.cpp:36-72 | The record is determined by its controls and its two modes. So With and WithMode change exactly one field. |
| Params.Clamp | firmware/DaisyGuitar.cpp:292 | `fclamp` gives a result no greater than the upper bound, and within the range when the range is non-empty. An in-range value is kept, and a value beyond a bound becomes that bound. |
| Params.ClampIsNearest | firmware/DaisyGuitar.cpp:292-327 | On a non-empty range, the clamped value is the nearest point of the range to the input. |
| Params.ClampIdempotent | firmware/DaisyGuitar.cpp:292-327 | Clamping twice is clamping once. |
| Params.Trunc | firmware/DaisyGuitar.cpp:302 | The `(int)` cast drops the fraction toward zero. The result lies within one of the input on the side nearer zero. |
| Params.ModeGuard | firmware/DaisyGuitar.cpp:302-303 | The guard `0 <= (int)val <= 2` accepts exactly the values strictly between -1 and 3. |
| Dispatch.Lookup | firmware/DaisyGuitar.cpp:292-327 | A name the comparison chain accepts is the wire name of the target it selects. |
| Dispatch.LookupName | firmware/DaisyGuitar.cpp:292-327 | Every one of the 26 targets is selected by its wire name. With Lookup's contract, the name table is a bijection. |
| Dispatch.AliasesOnly | firmware/DaisyGuitar.cpp:297 | The record's own names `ch1_delay_feedback`, `ch2_delay_feedback` and `cross_mod_amt` are not accepted. Only the aliases `ch*_delay_fb` and `cross_mod` are. |
| Dispatch.NameSpan | firmware/DaisyGuitar.cpp:289 | `%63[^:]` consumes at most 63 characters, none of them a colon. It stops early only at a colon or at the end of the string. |
| Dispatch.Scan | firmware/DaisyGuitar.cpp:289 | A successful match means the line is a 1..63-character colon-free name, a colon, then text from which `%f` reads the value. |
| Dispatch.ScanFormatted | firmware/DaisyGuitar.cpp:289 | Conversely, every `name:text` line with such a name is split at that colon, and it fails exactly when `%f` fails on the text. |
| Dispatch.LongNameRejected | firmware/DaisyGuitar.cpp:285-289 | A line whose first 64 characters contain no colon never matches. |
| Dispatch.ModeFor | firmware/DaisyGuitar.cpp:301-304 | A mode value is accepted exactly when it lies strictly between -1 and 3, and the stored mode is its truncation. |
| Dispatch.ApplyCommand | firmware/DaisyGuitar.cpp:292-327 | No command leaves the record unchanged. A control command changes that control alone, to the clamped value. A mode command changes that mode alone, and only when the guard accepts. Controls that were in range stay in range. |
| Dispatch.Apply | firmware/DaisyGuitar.cpp:289-327 | A line that fails the `name:value` match or names no known parameter leaves the record unchanged, and controls that were in range stay in range. |
| Dispatch.EmptyLineIgnored | firmware/DaisyGuitar.cpp:289 | An empty line leaves the record unchanged. |
| Firmware.Boot | firmware/DaisyGuitar.cpp:36-77 | The power-up state satisfies every invariant, with position 0 and the flag lowered. |
| Firmware.Receive | firmware/DaisyGuitar.cpp:241-266 | A packet changes only the framer, and it preserves every invariant. |
| Firmware.ProcessSerial | firmware/DaisyGuitar.cpp:278-334 | With the flag lowered nothing changes. With it raised, the flag is lowered even if parsing fails, the buffer and position are untouched, and the record becomes Apply of the buffered C string. |
| Firmware.ProcessSerialIdempotent | firmware/DaisyGuitar.cpp:280-282 | Polling twice without a packet in between equals polling once. |
| Firmware.Run | firmware/DaisyGuitar.cpp:377-379 | Any interleaving of packets and polls keeps the position in 0..127. |
| Firmware.RunKeepsGood | firmware/DaisyGuitar.cpp:75-77 | From power-up, every interleaving keeps several facts. The position stays in 0..127, so both buffer writes stay in bounds. The last cell stays NUL, so `sscanf` never reads past the buffer. No terminator is stored, and every control stays in range. |
| Firmware.SendLine | firmware/DaisyGuitar.cpp:247-289 | A short terminated line sent from position 0 is applied on the next poll exactly as Apply says, and the flag is left lowered. |
| Firmware.SetControlCommand | firmware/DaisyGuitar.cpp:289-327 | A `name:text` command for a known control sets that control to the clamped value. Every other control and both modes are left as they were. |
| Firmware.TerminatorPairDropsCommand | firmware/DaisyGuitar.cpp:247-252 | When `;` and a newline arrive in one packet, the record is left unchanged. |
| Firmware.TerminatorPairWithPoll | firmware/DaisyGuitar.cpp:280-289 | With a poll between `;` and the newline, the same command is applied. |

## Left out

- `AudioCallback` and `MySoftClip`: floating-point DSP over DaisySP objects whose code is not part of this model.
- `main`: hardware, audio and USB initialisation, the LED heartbeat and delays. `Run` stands in for its polling loop.
- The text-to-number conversion of `%f`: it is the `FloatScanner` oracle, a function from the text after the colon to an optional value. Its whitespace skipping and number syntax are the oracle's business.
- Params.Clamp: works on reals, so `fclamp`'s behaviour on NaN is not modelled. Single-precision rounding is not modelled either: the bounds `0.95f` and `0.01f` are the exact decimals.
- Params.Trunc: the cast is unbounded. C leaves the `(int)` conversion of an out-of-range float undefined, and the model returns the exact truncation instead.
- The interrupt/main-loop interaction on the `volatile` flag: concurrency. The callback and the handler are atomic steps of one sequential state.
- The host-side DFU flashing client (address set, erase, chunked download, manifestation): its source is not part of this model.
