# pywinkeyerdaemon in Dafny

pywinkeyerdaemon is a cwdaemon-compatible daemon for the K1EL WinKeyer
Morse keyer. Each UDP frame it receives is either an ESC command (set
speed, tune, PTT, weighting, delay, ...) or text to key. The daemon turns
the frame into WinKeyer serial command bytes. This project models the two
variants of the program, `winkeyerdaemon.py` (newer) and
`pywinkeyerdaemon.py` (earlier), and proves what bytes each frame writes and
how it changes the session.

Every write to the serial port is an append to a ghost byte log (`log`), so
each operation states exactly which bytes it appends.

Modules:

- `Common` (common.dfy): bytes, the Python exceptions a frame can raise
  (`Outcome`), the session variables `state_speed`, `state_ptt` and
  `state_delay` (`Session`), ASCII upper-casing and encoding, and the
  decimal parse of an ESC argument (`ParseInt`, an abstract `int()`).
- `Registers` (registers.dfy): the register encoders. These are sidetone
  frequency quantisation (`Nearest`, `SidetoneCode`, the loop
  `WkSidetoneCode`), the pin-configuration and mode bytes with decoders,
  the weighting map, the weighting clamp and the PTT lead/tail step count.
- `Keyer` (winkeyer.dfy): the `WinKeyer` class. It keeps the register
  fields and each method appends its command bytes.
- `Pipeline` (pipeline.dfy): the text path of a keying frame. The frame is
  cut at the first NUL and trailing non-space whitespace is stripped.
  Prosigns are expanded (loop `ExpandProsigns`, reference `Expanded`).
  In-line `+`/`-` become buffered speed changes (loop `ExpandSpeedChanges`,
  reference `SpeedExpansion`).
- `Daemon` (daemon.dfy): the newer `handle`, as a specification `Respond`
  and the class method `CwdaemonServer.Handle` proved against it.
- `Legacy` (legacy.dfy): the earlier `Winkeyer` and `handle`, compared
  with the newer ones. Its prosign expansion and text path are the same as
  the newer file's, so `Pipeline` models them for both files.

A Python exception ends a frame with `Raised(...)`: `IndexError` for an
empty frame or a lone ESC, `ValueError` for a bad number or an impossible
`chr`, `TypeError` for ESC '3', and `AssertionError` for a speed outside
0..99. A keyed message that holds a code point of 128 or more ends with
`NonAscii` and nothing is written.

A frequency exactly midway between two supported sidetone frequencies goes
to the higher one, because of the strict `<` at winkeyerdaemon.py:58
(`Registers.SidetoneTieGoesHigher`).

## Model

| member | source | states |
|---|---|---|
| Common.ParseShowInt | winkeyerdaemon.py:500-503 | every integer written in decimal is read back as itself by the argument parse |
| Common.ParseIntAccepts | winkeyerdaemon.py:563-564 | the parse succeeds exactly on an optional sign followed by decimal digits, so an empty argument is a `ValueError` |
| Common.Utf8OfAscii | winkeyerdaemon.py:148-149 | on ASCII code points the real UTF-8 encoding is exactly one byte per code point |
| Registers.NearestIsBest | winkeyerdaemon.py:44-63 | the reference choice is one of the candidates and beats every candidate: strictly closer, or equally close and higher |
| Registers.BestIsUnique | winkeyerdaemon.py:44-63 | only one candidate beats all the others, so the reference choice is well defined |
| Registers.SidetoneCode | winkeyerdaemon.py:29-39 | the code of any frequency is one of the table's codes 0x1..0xa |
| Registers.WkSidetoneCode | winkeyerdaemon.py:44-63 | the clamp-and-bracket scan returns the code of the nearest supported frequency; 0xa at or below 400 Hz; 0x1 at or above 4000 Hz; a supported frequency's own code |
| Registers.SidetoneCodeBelowRange | winkeyerdaemon.py:50-51 | any frequency at or below 400 Hz gives code 0xa |
| Registers.SidetoneCodeAboveRange | winkeyerdaemon.py:52-53 | any frequency at or above 4000 Hz gives code 0x1 |
| Registers.SupportedIsNearest | winkeyerdaemon.py:44-63 | a supported frequency is quantised to itself |
| Registers.SidetoneTieGoesHigher | winkeyerdaemon.py:57-61 | a frequency exactly midway between two neighbouring supported frequencies gets the higher one's code |
| Registers.BracketChoiceBeats | winkeyerdaemon.py:55-62 | inside a bracket, the end the strict `<` test picks beats every supported frequency |
| Registers.PinConfigRoundTrip | winkeyerdaemon.py:320-331 | every field of the pin configuration decodes back from the packed byte, under both key-bit mappings |
| Registers.PinConfigByteOnto | winkeyerdaemon.py:320-331 | every byte with priority bits other than 3 is the packing of the configuration it decodes to |
| Registers.CorrectionSwapsKeyBits | winkeyerdaemon.py:83-89 | the corrected mapping swaps the key1 and key2 bit positions (2,3 become 3,2) |
| Registers.DefaultPinConfigByte | winkeyerdaemon.py:112-121 | the constructor defaults pack to 0x06 uncorrected and 0x0A corrected |
| Registers.ModeRoundTrip | winkeyerdaemon.py:404-422 | the mode byte keeps bits 2, 6 and 7 clear and decodes back to swap, keying mode, contest spacing and autospace |
| Registers.ModeByteOnto | winkeyerdaemon.py:404-422 | every byte with bits 2, 6 and 7 clear is the packing of the settings it decodes to |
| Registers.WinkeyerWeighting | winkeyerdaemon.py:448-464 | for -50..50 the result is in 10..90, its distance from 50 is the truncated fraction v*80/100, and it is on v's side of 50 |
| Registers.WeightingSymmetric | winkeyerdaemon.py:463 | truncation toward zero makes the map symmetric about 50 |
| Registers.WeightingMonotone | winkeyerdaemon.py:463 | the map never decreases |
| Registers.WeightingValues | winkeyerdaemon.py:448-464 | -50 gives 10, 0 gives 50, 50 gives 90, and -1 gives 50 (not 49) |
| Registers.ClampWeighting | winkeyerdaemon.py:199-205 | the written weighting is in 10..90, equal to the input inside that range and the nearest end outside it |
| Registers.StepCount | winkeyerdaemon.py:226-230 | a valid lead or tail time is written as its count of 10 ms steps, 0..25 |
| Keyer.WinKeyer.constructor | winkeyerdaemon.py:100-121 | default fields (sidetone and key1 on, key2 and PTT off, normal priority, hang 1, lead and tail 0); with `set_pinconfig` it writes 0x09 and the default register byte |
| Keyer.WinKeyer.SetSpeed | winkeyerdaemon.py:141-143 | a speed in 0..99 appends exactly 0x02 and the speed; any other speed is an AssertionError and writes nothing |
| Keyer.WinKeyer.Abort | winkeyerdaemon.py:145-146 | appends exactly 0x0A |
| Keyer.WinKeyer.Send | winkeyerdaemon.py:148-149 | appends the upper-cased message, one byte per character |
| Keyer.WinKeyer.Tune | winkeyerdaemon.py:151-161 | seconds in 0..99 append 0x0A, then 0x19 and the seconds; any other value is an AssertionError and writes nothing |
| Keyer.WinKeyer.SetFirstExtension | winkeyerdaemon.py:163-174 | 0..250 appends 0x10 and the value; otherwise an AssertionError with no write |
| Keyer.WinKeyer.SetKeyCompensation | winkeyerdaemon.py:176-188 | 0..250 appends 0x11 and the value; otherwise an AssertionError with no write |
| Keyer.WinKeyer.SetWeighting | winkeyerdaemon.py:190-207 | appends 0x03 and the weighting clamped into 10..90 |
| Keyer.WinKeyer.SetPttLeadTailTime | winkeyerdaemon.py:209-230 | only multiples of 10 in 0..250 are accepted; only the given times change, a valid lead time being stored before the tail time is checked; on success it appends 0x04, lead/10, tail/10 |
| Keyer.WinKeyer.SetLeadTime | winkeyerdaemon.py:232-238 | changes only the lead time, keeps the tail time, writes 0x04 with both step counts |
| Keyer.WinKeyer.SetTailTime | winkeyerdaemon.py:240-248 | changes only the tail time, keeps the lead time, writes 0x04 with both step counts |
| Keyer.WinKeyer.AssertPtt | winkeyerdaemon.py:250-263 | appends 0x18 then 1 for on or 0 for off |
| Keyer.WinKeyer.SetPinconfig | winkeyerdaemon.py:265-331 | every argument left out keeps its stored field; the hang time must be 1, 2, 4 or 8 (the other fields are already stored when that fails, and nothing is written); on success it appends 0x09 and the packed register of all stored fields |
| Keyer.WinKeyer.SetKey1Enable | winkeyerdaemon.py:333-336 | only key1 changes and the whole register is rewritten |
| Keyer.WinKeyer.SetKey2Enable | winkeyerdaemon.py:338-341 | only key2 changes and the whole register is rewritten |
| Keyer.WinKeyer.SetUltimaticPriority | winkeyerdaemon.py:343-349 | only the priority changes and the whole register is rewritten |
| Keyer.WinKeyer.SetHangTime | winkeyerdaemon.py:351-359 | only a hang time of 1, 2, 4 or 8 is stored and written; any other leaves everything unchanged |
| Keyer.WinKeyer.SetPttEnable | winkeyerdaemon.py:361-372 | only the PTT enable changes and the whole register is rewritten |
| Keyer.WinKeyer.SetSidetoneEnable | winkeyerdaemon.py:374-376 | only the sidetone enable changes and the whole register is rewritten |
| Keyer.WinKeyer.SetSidetoneFrequency | winkeyerdaemon.py:378-385 | appends 0x01 and the code of the nearest supported frequency |
| Keyer.WinKeyer.SetWinkeyerMode | winkeyerdaemon.py:387-422 | appends 0x0E and the packed mode byte |
| Keyer.DitsPinconfigAsWritten | winkeyerdaemon.py:331 | as written, the 'dits' priority register byte 0x86 goes out UTF-8 encoded as 0xC2 0x86 |
| Pipeline.TruncateAtNul | winkeyerdaemon.py:492-494 | the result is the longest NUL-free prefix of the frame |
| Pipeline.TruncateAtFirstNul | winkeyerdaemon.py:492-494 | everything from the first NUL on is dropped |
| Pipeline.StripTrailing | winkeyerdaemon.py:602-605 | the result is a prefix; only tab, LF, CR, VT and FF are removed from the end; the result does not end in one of them |
| Pipeline.StripIdempotent | winkeyerdaemon.py:602-605 | stripping twice is stripping once |
| Pipeline.StripKeepsUnstrippedEnd | winkeyerdaemon.py:486 | a text ending in a space or any other kept character is left as it is |
| Pipeline.ProsignLettersArePlain | winkeyerdaemon.py:428-437 | every prosign is two letters, none of them a prosign character |
| Pipeline.Expanded | winkeyerdaemon.py:425-445 | the expansion is longer than the text by exactly 2 per prosign character |
| Pipeline.ExpandProsigns | winkeyerdaemon.py:425-445 | the loop builds exactly the character-by-character expansion (the identical copy at pywinkeyerdaemon.py:91-111 is the same loop) |
| Pipeline.ExpandedConcat | winkeyerdaemon.py:440-444 | expansion works character by character: the expansion of a concatenation is the concatenation of expansions |
| Pipeline.ProsignCountPositive | winkeyerdaemon.py:440-444 | the prosign count is positive exactly when a prosign character occurs |
| Pipeline.ExpandedPlain | winkeyerdaemon.py:443-444 | a text without prosign characters is unchanged |
| Pipeline.ExpandedIdentity | winkeyerdaemon.py:608-612 | a text is unchanged by expansion if and only if it holds no prosign character |
| Pipeline.ExpandedHasNoProsigns | winkeyerdaemon.py:425-445 | an expanded text holds no prosign character |
| Pipeline.ExpandedIdempotent | winkeyerdaemon.py:425-445 | expanding twice is expanding once |
| Pipeline.ExpandedAscii | winkeyerdaemon.py:425-445 | expansion keeps ASCII text ASCII |
| Pipeline.StepSpeed | winkeyerdaemon.py:621-636 | `+` never goes above 99 or more than two up, reaching exactly speed + 2 or 99, and never slows a speed of at most 99; `-` never goes below 5 or more than two down, reaching exactly speed − 2 or 5, and never speeds up a speed of at least 5; a speed in 1..99 stays in 1..99 (a `+` from below 5 may stay below 5) |
| Pipeline.ExpandSpeedChanges | winkeyerdaemon.py:614-650 | the loop with its running speed builds exactly the reference speed expansion |
| Pipeline.ScanAdvance | winkeyerdaemon.py:620-638 | one loop step moves one character's output from the part still to scan to the part built |
| Pipeline.ScanAtZero | winkeyerdaemon.py:622-636 | at speed 0 the running speed stays 0 and every sign is deleted |
| Pipeline.ExpansionWithoutSigns | winkeyerdaemon.py:619 | a text with neither `+` nor `-` is keyed unchanged |
| Pipeline.ExpansionAtSpeedZero | winkeyerdaemon.py:614-650 | before a speed is set every `+` and `-` is deleted, with no speed-change or cancel byte added |
| Pipeline.RemoveSignsPlain | winkeyerdaemon.py:637-638 | deleting signs from a sign-free text changes nothing |
| Pipeline.NoSignTail | winkeyerdaemon.py:619 | a sign-free text has a sign-free first character and tail |
| Pipeline.ScanInRange | winkeyerdaemon.py:620-645 | from a speed in 0..99 the running speed stays in 0..99 and is 0 only if it started at 0; from a set speed each sign inserts two code points; ASCII stays ASCII |
| Pipeline.ExpansionEndsWithCancel | winkeyerdaemon.py:639-645 | from a speed in 1..99 a text with a sign ends with exactly one 0x1E after the scanned text |
| Pipeline.KeyedMessageAscii | winkeyerdaemon.py:600-652 | ASCII text keyed at a speed in 0..99 stays ASCII through strip, prosigns and speed changes |
| Pipeline.UnbufferRecoversText | winkeyerdaemon.py:620-638 | deleting each inserted 0x1C and the speed after it gives back the text without its signs, in order |
| Daemon.CwdaemonServer.constructor | winkeyerdaemon.py:741-743 | the session starts with speed 0, PTT off and delay 0 |
| Daemon.CwdaemonServer.Handle | winkeyerdaemon.py:484-652 | the method changes the session and the serial log exactly as the specification `Respond` says, and returns its outcome |
| Daemon.CwdaemonServer.SetTone | winkeyerdaemon.py:511-516 | 0 turns the sidetone off; any other tone writes the nearest sidetone code and then turns the sidetone on; the pin fields other than the sidetone enable, and the lead and tail times, keep their values |
| Daemon.NulEndsFrame | winkeyerdaemon.py:492-494 | a frame is handled exactly as its part before the first NUL |
| Daemon.ShortFramesRaise | winkeyerdaemon.py:496-497 | an empty frame or a lone ESC raises IndexError with no write and no state change |
| Daemon.SpeedCommand | winkeyerdaemon.py:499-503 | ESC '2' stores any speed; only 0..99 writes 0x02 and the speed; other speeds raise AssertionError after being stored |
| Daemon.ToneCommandRaises | winkeyerdaemon.py:504-508 | ESC '3' always raises TypeError with no write and no state change |
| Daemon.AbortCommand | winkeyerdaemon.py:517-519 | ESC '4' writes 0x0A |
| Daemon.WeightingCommand | winkeyerdaemon.py:526-533 | ESC '7' with -50..50 writes 0x03 and the mapped weighting; outside that range it writes nothing |
| Daemon.PttCommand | winkeyerdaemon.py:539-558 | ESC 'a' writes 0x18 and 1 or 0 and records PTT exactly when the delay is not positive and the request differs from the recorded state |
| Daemon.PttOtherArgIgnored | winkeyerdaemon.py:541-544 | any PTT argument other than exactly "0" or "1" is ignored |
| Daemon.PttCommandIdempotent | winkeyerdaemon.py:549-558 | the same PTT command sent twice writes nothing the second time |
| Daemon.TuneCommand | winkeyerdaemon.py:563-578 | ESC 'c' with 1..99 writes 0x0A, 0x19 and the seconds; 0 and out-of-range values write nothing |
| Daemon.DelayCommand | winkeyerdaemon.py:579-590 | ESC 'd' only stores the delay |
| Daemon.BadNumberRaises | winkeyerdaemon.py:500-503 | a malformed argument to '2', '7', 'c' or 'd' raises ValueError with no effect |
| Daemon.SilentCodes | winkeyerdaemon.py:497-599 | every other command code, '1' and unknown codes included, does nothing |
| Daemon.CommandChanges | winkeyerdaemon.py:496-599 | only '2' changes the speed, only 'a' the PTT state and only 'd' the delay, each with a non-empty argument |
| Daemon.SessionChanges | winkeyerdaemon.py:484-652 | only ESC '2', 'a' and 'd' frames change the session; text frames never do |
| Daemon.TextFrameKeyed | winkeyerdaemon.py:600-652 | an ASCII text frame at a speed in 0..99 is written in full, upper-cased, and leaves the session alone |
| Daemon.SpeedBytesUpperCased | winkeyerdaemon.py:149 | from speed 95, '+' buffers speed 97, which upper-casing turns into 65: bytes 0x1C 0x41 0x1E |
| Daemon.NegativeSpeedCrashesText | winkeyerdaemon.py:620-630 | after a rejected speed of −3 or less, '+' asks for a negative `chr` and raises ValueError with no write |
| Daemon.NegativeSpeedMinusFloors | winkeyerdaemon.py:618-641 | after a rejected negative speed, '-' is floored at 5 and writes 0x1C, 0x05, 0x1E |
| Legacy.Winkeyer.SetSpeed | pywinkeyerdaemon.py:56-58 | 0..99 appends 0x02 and the speed; any other speed is an AssertionError and writes nothing |
| Legacy.Winkeyer.Abort | pywinkeyerdaemon.py:60-61 | appends 0x0A |
| Legacy.Winkeyer.Send | pywinkeyerdaemon.py:63-64 | appends the upper-cased message |
| Legacy.Winkeyer.Tune | pywinkeyerdaemon.py:66-76 | seconds in 0..99 append 0x0A, then 0x19 and the seconds; any other value is an AssertionError and writes nothing |
| Legacy.Winkeyer.Ptt | pywinkeyerdaemon.py:78-82 | appends 0x18 then 1 or 0 |
| Legacy.Winkeyer.SidetoneEnable | pywinkeyerdaemon.py:84-88 | appends 0x09 then 0x06 when enabled, 0x04 when disabled |
| Legacy.SidetoneBytesArePinconfig | pywinkeyerdaemon.py:84-88 | those fixed bytes are the newer file's default register with only the sidetone switched |
| Legacy.CwdaemonServer.Handle | pywinkeyerdaemon.py:125-268 | the method changes the session and the serial log exactly as the earlier specification `Respond` says |
| Legacy.CwdaemonServer.constructor | pywinkeyerdaemon.py:300-302 | the session starts with speed 0, PTT off and delay 0 |
| Legacy.ToneAndWeightingLogOnly | pywinkeyerdaemon.py:145-158 | ESC '3' and ESC '7' only log: no write and no state change |
| Legacy.PttCommand | pywinkeyerdaemon.py:163-180 | ESC 'a' acts only when the delay is not 0 and the request differs from the recorded state |
| Legacy.PttGatesCompared | pywinkeyerdaemon.py:170 | the two PTT gates agree for a negative delay; at delay 0 only the newer file acts; at a positive delay only the earlier one does |
| Legacy.VariantsAgree | pywinkeyerdaemon.py:125-268 | apart from ESC '3', '7' and 'a', both variants handle every frame identically |

## Left out

- Serial transport: opening the port, the host-open/host-close handshake with its version check, `flushInput`, timeouts and the exit hook (winkeyerdaemon.py:110-111, 127-139; pywinkeyerdaemon.py:38-54). Writes are appended to a ghost log instead; the constructors start that log empty.
- The UDP server: `socketserver`, the `verify_request` access check and `serve_forever` are network plumbing.
- Start-up: argparse and wiring, including the `--key_compensation` flag, which calls `set_first_extension` (winkeyerdaemon.py:791-792) and never `set_key_compensation`; both WinKeyer methods are modelled on their own, and nothing in the source calls `set_key_compensation`.
- Logging: `printdbg` and `CwdaemonServerDebug` have no effect on bytes or state.
- Decoding of the UDP frame: a frame is modelled as its decoded string; invalid UTF-8 (a UnicodeDecodeError) is not modelled.
- Common.ParseInt: does not accept the rest of Python's `int()` grammar (surrounding whitespace, underscores, non-ASCII digits), because only a sign and ASCII digits are modelled; such arguments are a ValueError in the model.
- Daemon.TextEffect: a message holding a code point of 128 or more ends as `NonAscii` with no write, because Unicode upper-casing and UTF-8 encoding of such text are not modelled.
- Keyer.WinKeyer.SetPinconfig: writes the register as one raw byte. The source writes it UTF-8 encoded, which differs only for the 'dits' priority (see Findings).
- Keyer.WinKeyer.SetFirstExtension: writes its value as one byte, while the source's `.encode()` sends two UTF-8 bytes for values of 128 or more (winkeyerdaemon.py:173).
- Keyer.WinKeyer.SetKeyCompensation: writes its value as one byte, while the source's `.encode()` sends two UTF-8 bytes for values of 128 or more (winkeyerdaemon.py:187).
- Keyer.WinKeyer.SetUltimaticPriority: with the 'dits' priority the register 0x86 is written as one byte, while the source sends the two bytes 0xC2 0x86 (see Findings). The priority is a three-valued datatype, so the AssertionError for an unknown priority name cannot arise. Likewise the `isinstance` assertions are replaced by Dafny types.

## Findings

| source | as written | input that shows it | evidently intended | confidence | as-written member | corrected member |
|---|---|---|---|---|---|---|
| winkeyerdaemon.py:331 | `(chr(0x09) + chr(data)).encode()` UTF-8 encodes a register byte of 0x80 or more into two bytes | `set_ultimatic_priority('dits')` with the defaults: register 0x86 goes out as 0x09 0xC2 0x86 | the two bytes 0x09 0x86 | high; not executed | Keyer.DitsPinconfigAsWritten | Keyer.WinKeyer.SetPinconfig |
