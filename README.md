# go-midi lexer, modelled in Dafny

This project models the core of go-midi, a lexer for Standard MIDI Files
(SMF) written in Go. That core has four parts:

- The decoders of `midi_functions.go`. Each reads one field from an
  `io.ReadSeeker`: a big-endian uint32 or uint16, one or two 7-bit data
  bytes, a raw byte, a 14-bit pitch-wheel value, a variable-length
  quantity, a chunk header, the MThd header data, a status byte, or a
  length-prefixed text.
- The state machine of `midi.go`. `MidiLexer.next()` reads one item per
  call from the input. In `ExpectHeader` it reads the MThd chunk, in
  `ExpectChunk` a chunk header, and in `ExpectTrackEvent` one track
  event. It reports what it reads through the `MidiLexerCallback`
  interface.
- The test doubles of `mocks.go`: the in-memory `MockReadSeeker` and the
  `CountingLexerCallback`, which counts each callback and keeps its last
  arguments.
- The older copies in `midi/`: the forward-only `MockReader` and three
  decoders written over it.

The SMF constants of `midi_values.go` are included too. So is the
key-signature table that `music_test.go` expects.

## How the model is built

- Go's integer types are subset types of `int` (see `go_types.dfy`).
  Masks and shifts are written as `%` and `/`. The one place where
  uint32 arithmetic wraps around is the `result << 7` of
  `parseVarLength`. It is written out as `% 2^32` (`Decoding.ShiftLeft7`).
- The cursor is a class, `Mocks.MockReadSeeker`. Its byte slice is
  constant and its `position` changes. `Read` copies into an
  `array<byte>`, as Go copies into the caller's slice.
- Each decoder is a method over that cursor (`MidiFunctions`). What every
  decoder computes is a pure function of the bytes and the start position
  (`Decoding.…At`). Each function returns the result with the position
  the cursor is left at. Each method is proved to give exactly what its
  function gives. A short read still consumes what was left, as it does
  in Go.
- The lexer is a class, `Midi.MidiLexer`. It has `state`,
  `nextChunkHeader` and a log `events` of the callbacks it made, in call
  order. Each state's step is a pure function (`HeaderStep`,
  `ChunkStepAsWritten`, `TrackEventStep` and `NextStep`). `MidiLexer.Next`
  is proved to change the state, the cursor and the log exactly as
  `NextStep` says. The lexer follows the code as written, including the
  skip over an unknown chunk (see Findings). The corrected skip is the
  separate step `ChunkStep`. `MidiLemmas.ChunkStepsAgree` says exactly when
  the two steps agree.
- The logged events are handed to a `CountingLexerCallback` by
  `Deliver`, the interface dispatch (see `Scenarios`). The callback's
  counters are fields, as in Go. Its twelve most-recent-value fields are
  kept together in one field, `seen`, of type `Mocks.LastSeen`, with the
  same field names.
- The properties are round trips against encoders:
  - each decoder reads back what the matching encoder wrote;
  - every event the lexer reports reads back from its encoding;
  - a whole one-track file reads back event by event;
  - when each step fails and how;
  - the examples the repository's tests check, one lemma or scenario
    method each.

## Model

| member | source | states |
|---|---|---|
| Decoding.BigEndian16 | midi_functions.go:48-68 | the uint16 built from two bytes has the first as its high byte and the second as its low byte |
| Decoding.BigEndian32 | midi_functions.go:23-44 | the uint32 built from four bytes has them as its bytes, most significant first |
| Decoding.Uint16Bytes | midi_functions.go:48-68 | encoder: two bytes that BigEndian16 joins back to the value |
| Decoding.Uint32Bytes | midi_functions.go:23-44 | encoder: four bytes that BigEndian32 joins back to the value |
| Decoding.Low7 | midi_functions.go:72-108 | `b & 0x7f` is below 0x80, is b itself when bit 7 is clear and b - 0x80 when it is set |
| Decoding.StatusType | midi_functions.go:271-289 | the message type nibble is below 16 |
| Decoding.StatusChannel | midi_functions.go:271-289 | the channel nibble is below 16 |
| Decoding.PitchWheelAbsolute | midi_functions.go:135-161 | the 14-bit value has the first byte's low seven bits as its low group and the second's as its high group |
| Decoding.PitchWheelRelative | midi_functions.go:135-161 | the value relative to 0x2000 lies in [-0x2000, 0x2000) and adds back to the absolute value |
| Decoding.ShiftLeft7 | midi_functions.go:165-192 | `result << 7` on uint32 keeps only the low 25 bits of the old value, times 128 |
| Decoding.ShiftLeft7Drops | midi_functions.go:165-192 | multiplying by 128 modulo 2^32 drops the top seven bits |
| Decoding.VlqStep | midi_functions.go:180-183 | one loop turn: the value shifted left by seven with the uint32 wrap-around, then the byte's low seven bits or-ed in; its contract is in VlqStepParts |
| Decoding.VlqStepParts | midi_functions.go:165-192 | one loop turn puts the byte's low seven bits into bits 6-0 and the old value, less its top seven bits, above them; below 2^25 it is value·128 + low seven bits |
| Decoding.VlqFold | midi_functions.go:179-184 | the loop's value over a run of bytes; the last byte read gives its low seven bits |
| Decoding.VlqFoldSnoc | midi_functions.go:165-192 | folding one more byte into a run is one more loop turn |
| Decoding.Continuations | midi_functions.go:165-192 | encoder helper: the leading groups of a quantity, all with bit 7 set, none for zero, and never a leading 0x80 |
| Decoding.VarLengthBytes | midi_functions.go:165-192 | encoder: the shortest variable-length encoding; bit 7 is set on every byte but the last |
| Decoding.Uint32At | midi_functions.go:23-44 | succeeds exactly when four bytes are left, then advances by 4 and gives the value whose encoding they are; otherwise UnexpectedEndOfFile with the input consumed |
| Decoding.Uint16At | midi_functions.go:48-68 | the same for two bytes |
| Decoding.Uint7At | midi_functions.go:72-88 | succeeds exactly when a byte is left and gives it with bit 7 cleared; otherwise UnexpectedEndOfFile |
| Decoding.TwoUint7At | midi_functions.go:92-108 | succeeds exactly when two bytes are left and gives both with bit 7 cleared |
| Decoding.Uint8At | midi_functions.go:112-128 | succeeds exactly when a byte is left and gives it unchanged |
| Decoding.PitchWheelAt | midi_functions.go:135-161 | succeeds exactly when two bytes are left; absolute is 14 bits from the two groups, low group first, and relative is absolute - 0x2000 |
| Decoding.StatusByteAt | midi_functions.go:271-289 | succeeds exactly when a byte is left; the type and channel nibbles recombine to the byte |
| Decoding.VarLengthFrom | midi_functions.go:165-192 | stops after the first byte with bit 7 clear, having consumed at least one byte; running out is UnexpectedEndOfFile with all input consumed |
| Decoding.VarLengthAt | midi_functions.go:165-192 | parseVarLength from zero: it never reads backwards, and its only error is UnexpectedEndOfFile with the input consumed |
| Decoding.VarLengthUnfold | midi_functions.go:165-192 | one read of the loop: nothing read is EOF, a byte with bit 7 clear ends the quantity, one with bit 7 set continues it |
| Decoding.VarLengthShape | midi_functions.go:165-192 | on success the consumed bytes are continuations then one final byte, and the result is their fold; on failure every remaining byte has bit 7 set |
| Decoding.ChunkHeaderAt | midi_functions.go:196-220 | no error exactly when 8 bytes are left; the tag is the first four bytes whenever they exist; a short tag gives the empty header; a short length keeps the tag with length 0 |
| Decoding.WithDivision | midi_functions.go:224-268 | division bit 15 clear: metrical time, ticks = bits 14-0; set: time-code time, bits 14-0 kept unpacked; the other field untouched |
| Decoding.HeaderDataAt | midi_functions.go:224-268 | on success exactly six bytes are consumed |
| Decoding.TextAt | midi_functions.go:291-315 | on success the text is exactly the declared number of bytes after the length |
| DecodingLemmas.Uint32RoundTrip | midi_functions.go:23-44 | every uint32, encoded anywhere in the input, decodes to itself four bytes on |
| DecodingLemmas.Uint16RoundTrip | midi_functions.go:48-68 | every uint16, encoded anywhere, decodes to itself |
| DecodingLemmas.FixedWidthExamples | midi_functions_test.go:86-249 | the 32-, 16- and 8-bit values and end-of-file cases of the decoder tests |
| DecodingLemmas.StatusByteRoundTrip | midi_functions.go:271-289 | any type and channel nibble pair is split back out of its status byte |
| DecodingLemmas.StatusByteExamples | midi_functions_test.go:402-431 | 0x15 is (1, 5), 0x42 is (4, 2), empty input is UnexpectedEndOfFile |
| DecodingLemmas.PitchWheelRoundTrip | midi_functions.go:135-161 | any 14-bit value written low group first decodes to (value - 0x2000, value) |
| DecodingLemmas.PitchWheelExamples | midi_functions_test.go:435-457 | 00 40 is centre (0, 0x2000); 34 24 is (-0xDCC, 0x1234) |
| DecodingLemmas.VarLengthSkipsContinuations | midi_functions.go:165-192 | a run of continuation bytes is folded in without ending the quantity |
| DecodingLemmas.FoldContinuations | midi_functions.go:165-192 | the continuation groups of w accumulate to w |
| DecodingLemmas.VarLengthRoundTrip | midi_functions.go:165-192 | every uint32, encoded shortest anywhere in the input, decodes to itself and consumes exactly its encoding |
| DecodingLemmas.ContinuationsLength | midi_functions.go:165-192 | a number below 128^k has at most k continuation groups |
| DecodingLemmas.VarLengthEncodingLength | midi_functions.go:165-192 | values below 2^28 take at most four bytes; every uint32 at most five |
| DecodingLemmas.VarLengthEofIff | midi_functions.go:165-192 | the quantity fails exactly when no remaining byte has bit 7 clear |
| DecodingLemmas.VarLengthOfEncoding | midi_functions.go:165-192 | a buffer holding exactly one encoding decodes to its value |
| DecodingLemmas.VarLengthTestVectors | midi_functions_test.go:24-83 | each encoding of the variable-length test table decodes to its value |
| DecodingLemmas.TestEncodingIsShortest | midi_functions_test.go:24-83 | each encoding in that table is the shortest encoding of its value |
| DecodingLemmas.ShortTestEncodings | midi_functions_test.go:24-83 | the table's first four rows are shortest encodings |
| DecodingLemmas.MiddleTestEncodings | midi_functions_test.go:24-83 | rows 4 to 7 are shortest encodings |
| DecodingLemmas.LongTestEncodings | midi_functions_test.go:24-83 | rows 8 to 11 are shortest encodings |
| DecodingLemmas.VarLengthEofExamples | midi_functions_test.go:24-83 | empty input, a lone 0x81, and 0x81 0xFF all fail with everything consumed |
| DecodingLemmas.VarLengthWrapsAround | midi_functions.go:165-192 | five groups overflow the uint32: 90 80 80 80 00 decodes to 0 |
| DecodingLemmas.FourGroupsReach2To25 | midi_functions.go:165-192 | 90 80 80 80 accumulates to 2^25, the value the next shift pushes out |
| DecodingLemmas.ChunkHeaderBytes | midi_functions.go:196-220 | encoder: the tag then the big-endian length, eight bytes |
| DecodingLemmas.ChunkHeaderRoundTrip | midi_functions.go:196-220 | every chunk header with a four-byte tag decodes back from its encoding |
| DecodingLemmas.ChunkHeaderExamples | midi_functions_test.go:253-321 | MThd/6, MThd/4294967, MTrk/0xEE, and the short-tag and short-length errors of the tests |
| DecodingLemmas.DivisionOf | midi_functions.go:224-268 | encoder: the division word that WithDivision splits back into the header's time format |
| DecodingLemmas.HeaderDataBytes | midi_functions.go:224-268 | encoder: the six bytes of valid header data |
| DecodingLemmas.HeaderDataRoundTrip | midi_functions.go:224-268 | every valid header decodes back from its six bytes |
| DecodingLemmas.HeaderDataOkIsCanonical | midi_functions.go:224-268 | whatever the decoder accepts is valid header data whose encoding is exactly the six bytes read |
| DecodingLemmas.HeaderDataOutcomes | midi_functions.go:224-268 | the decoder ends in success, UnsupportedSmfFormat for a format above 2, or UnexpectedEndOfFile with all input consumed |
| DecodingLemmas.HeaderDataMetricalExample | midi_functions_test.go:324-399 | format 1, two tracks, 200 ticks per quarter note |
| DecodingLemmas.HeaderDataTimeCodeExample | midi_functions_test.go:324-399 | bit 15 of the division set gives the time-code format with bits 14-0 unpacked |
| DecodingLemmas.HeaderDataErrorExamples | midi_functions_test.go:324-399 | format 3 is UnsupportedSmfFormat; a short division is UnexpectedEndOfFile |
| DecodingLemmas.TextRoundTrip | midi_functions.go:291-315 | a length-prefixed text decodes back to the text |
| DecodingLemmas.TextTooShort | midi_functions.go:291-315 | a declared length longer than what follows fails with the input consumed |
| DecodingLemmas.TextExamples | midi_functions_test.go:460-478 | sixteen bytes behind length 16 read back; behind length 17 they are UnexpectedEndOfFile |
| MidiFunctions.ParseUint32 | midi_functions.go:23-44 | result and final cursor are exactly Uint32At's |
| MidiFunctions.ParseUint16 | midi_functions.go:48-68 | result and final cursor are exactly Uint16At's |
| MidiFunctions.ParseUint7 | midi_functions.go:72-88 | result and final cursor are exactly Uint7At's |
| MidiFunctions.ParseTwoUint7 | midi_functions.go:92-108 | result and final cursor are exactly TwoUint7At's |
| MidiFunctions.ParseUint8 | midi_functions.go:112-128 | result and final cursor are exactly Uint8At's |
| MidiFunctions.ParsePitchWheelValue | midi_functions.go:135-161 | result and final cursor are exactly PitchWheelAt's |
| MidiFunctions.ParseVarLength | midi_functions.go:165-192 | the byte-at-a-time loop gives exactly VarLengthAt's result and position |
| MidiFunctions.VarLengthTurn | midi_functions.go:180-183 | one turn of the loop: after it, decoding goes on exactly as VarLengthFrom goes on from the byte it read, or ends with UnexpectedEndOfFile when the read returned nothing |
| MidiFunctions.ParseChunkHeader | midi_functions.go:196-220 | header, error and final cursor are exactly ChunkHeaderAt's |
| MidiFunctions.ParseHeaderData | midi_functions.go:224-268 | result and final cursor are exactly HeaderDataAt's |
| MidiFunctions.ReadStatusByte | midi_functions.go:271-289 | result and final cursor are exactly StatusByteAt's |
| MidiFunctions.ParseText | midi_functions.go:291-315 | result and final cursor are exactly TextAt's |
| OldMidiFunctions.ParseUint32 | midi/midi_functions.go:19-41 | the old decoder over the forward-only reader gives Uint32At's result: the two copies agree |
| OldMidiFunctions.ParseVarLength | midi/midi_functions.go:44-71 | the old loop gives VarLengthAt's result: the two copies agree |
| OldMidiFunctions.VarLengthTurn | midi/midi_functions.go:59-62 | one turn of the old loop, as in MidiFunctions.VarLengthTurn |
| OldMidiFunctions.ParseChunkHeader | midi/midi_functions.go:74-97 | the old decoder gives ChunkHeaderAt's header, error and position |
| OldMocks.MockReader.constructor | midi/mocks.go:50-52 | a new reader is at position 0 over the given bytes |
| OldMocks.MockReader.Read | midi/mocks.go:55-66 | copies min(len(p), bytes left) into the front of p, leaves the rest, advances by as many and never moves back |
| Mocks.ReadCount | mocks.go:249-261 | a read delivers the request clamped to what is left |
| Mocks.SeekSpec | mocks.go:266-301 | whence 0, 1, 2 seek from start, current and end; a target past the end gives -1 and io.EOF without moving; an unknown whence does nothing |
| Mocks.SeekRelative | mocks.go:278-287 | Seek(0, 1) reports the position; a relative seek within the data moves by the offset; past the end it fails and stays |
| Mocks.MockReadSeeker.constructor | mocks.go:244-246 | a new cursor is at position 0 over the given bytes |
| Mocks.MockReadSeeker.Read | mocks.go:249-261 | copies min(len(p), bytes left) into the front of p, leaves the rest of p, advances by as many |
| Mocks.MockReadSeeker.Seek | mocks.go:266-301 | return values and new position are exactly SeekSpec's |
| Mocks.WrittenByFields | mocks.go:124-234 | field by field, each kept value is written by exactly the callbacks whose Go method assigns it and kept by every other callback: ControlChange, ProgramChange, Began, Finished and the error callbacks write nothing, and SequenceNumber and the text callbacks leave the channel |
| Mocks.CountingLexerCallback.constructor | mocks.go:67-122 | every counter and every kept argument starts at its zero value |
| Mocks.CountingLexerCallback.Header | mocks.go:124 | counts the call, leaving every other counter as it was, and keeps the header |
| Mocks.CountingLexerCallback.Track | mocks.go:125 | counts the call, leaving every other counter as it was, and keeps the chunk header |
| Mocks.CountingLexerCallback.Began | mocks.go:126 | counts the call, leaving every other counter as it was |
| Mocks.CountingLexerCallback.Finished | mocks.go:127 | counts the call, leaving every other counter as it was |
| Mocks.CountingLexerCallback.ErrorReading | mocks.go:128 | counts the call, leaving every other counter as it was |
| Mocks.CountingLexerCallback.ErrorOpeningFile | mocks.go:129 | counts the call, leaving every other counter as it was |
| Mocks.CountingLexerCallback.NoteOff | mocks.go:130-136 | counts the call, leaving every other counter as it was, and keeps channel, pitch, velocity and time |
| Mocks.CountingLexerCallback.NoteOn | mocks.go:137-143 | counts the call, leaving every other counter as it was, and keeps channel, pitch, velocity and time |
| Mocks.CountingLexerCallback.PolyphonicAfterTouch | mocks.go:144-150 | counts the call, leaving every other counter as it was, and keeps channel, pitch, pressure and time |
| Mocks.CountingLexerCallback.ControlChange | mocks.go:151-153 | counts the call, leaving every other counter as it was, and keeps none of its arguments |
| Mocks.CountingLexerCallback.ProgramChange | mocks.go:154-156 | counts the call, leaving every other counter as it was, and keeps none of its arguments |
| Mocks.CountingLexerCallback.ChannelAfterTouch | mocks.go:157-162 | counts the call, leaving every other counter as it was, and keeps channel, pressure and time |
| Mocks.CountingLexerCallback.PitchWheel | mocks.go:163-169 | counts the call, leaving every other counter as it was, and keeps channel, both values and time |
| Mocks.CountingLexerCallback.SequenceNumber | mocks.go:190-195 | counts the call, leaving every other counter as it was, and keeps the number, whether it was given, and time |
| Mocks.CountingLexerCallback.Text | mocks.go:196-200 | counts the call, leaving every other counter as it was, and keeps text and time |
| Mocks.CountingLexerCallback.CopyrightText | mocks.go:201-205 | counts the call, leaving every other counter as it was, and keeps text and time |
| Mocks.CountingLexerCallback.SequenceName | mocks.go:206-210 | counts the call, leaving every other counter as it was, and keeps text and time |
| Mocks.CountingLexerCallback.TrackInstrumentName | mocks.go:211-215 | counts the call, leaving every other counter as it was, and keeps text and time |
| Mocks.CountingLexerCallback.LyricText | mocks.go:216-220 | counts the call, leaving every other counter as it was, and keeps text and time |
| Mocks.CountingLexerCallback.MarkerText | mocks.go:221-225 | counts the call, leaving every other counter as it was, and keeps text and time |
| Mocks.CountingLexerCallback.CuePointText | mocks.go:226-230 | counts the call, leaving every other counter as it was, and keeps text and time |
| Mocks.CountingLexerCallback.EndOfTrack | mocks.go:231-234 | counts the call, leaving every other counter as it was, and keeps time |
| Mocks.CountingLexerCallback.Deliver | midi_interfaces.go:18-81 | dispatching an event raises that event's counter by one and no other; every kept value changes exactly as WrittenBy says for that event, and no other field changes |
| Mocks.CountingLexerCallback.DeliverLifecycle | midi_interfaces.go:18-81 | the same, counters and every kept value, for the stream-level callbacks |
| Mocks.CountingLexerCallback.DeliverNote | midi_interfaces.go:18-81 | the same, counters and every kept value, for the note callbacks |
| Mocks.CountingLexerCallback.DeliverControl | midi_interfaces.go:18-81 | the same, counters and every kept value, for the other channel callbacks; control and program change leave every kept value as it was |
| Mocks.CountingLexerCallback.DeliverMeta | midi_interfaces.go:18-81 | the same, counters and every kept value, for sequence number, end of track, text and copyright |
| Mocks.CountingLexerCallback.DeliverNamedText | midi_interfaces.go:18-81 | the same, counters and every kept value, for the other five text callbacks |
| MidiValues.SmfFormatsAreTheFirstThree | midi_values.go:15-19 | the three SMF formats are exactly the uint16 values up to 2 |
| MidiValues.KeySignatureFromSharpsOrFlats | music_test.go:31-213 | the key keeps the requested mode; its tonic comes from the table of the key-signature test |
| MidiValues.KeySignatureIsCircleOfFifths | music_test.go:31-213 | major tonic = 7·sf mod 12 and minor tonic = 7·sf + 9 mod 12 for every row of the table |
| MidiValues.KeySignatureNextSharp | music_test.go:44-127 | one more sharp moves the tonic up a fifth, in both modes |
| MidiValues.KeySignatureExamples | music_test.go:33-212 | C major, A minor, and the seven-sharp and seven-flat keys |
| Midi.HeaderStep | midi.go:87-111 | an unreadable or non-MThd chunk header is ExpectedMthd; success, and only success, makes Began then Header and moves to ExpectChunk; a failure keeps ExpectHeader |
| Midi.ChunkStepAsWritten | midi.go:113-138 | the ExpectChunk step as written, which the lexer runs: an unreadable chunk header is returned with the state kept; MTrk calls Track, enters the track and records length + start; any other chunk calls Track, resets nextChunkHeader, and the cursor seeks by length + start position from just past its header, or stays there if that is past the end |
| Midi.ChunkStep | midi.go:127-133 | (corrected) the same step with the skip by the chunk length: any chunk other than MTrk calls Track and lands just after its data |
| Midi.ChannelEventAt | midi.go:173-250 | note, polyphonic pressure, channel pressure and pitch wheel read their data and make one channel event with the status channel and the delta-time; a short read is UnexpectedEndOfFile with no callback |
| Midi.TextEvent | midi.go:300-398 | text commands 1 to 7 map one-to-one to Text, CopyrightText, SequenceName, TrackInstrumentName, LyricText, MarkerText and CuePointText |
| Midi.MetaEventAt | midi.go:253-486 | at most one meta callback with the delta-time; only EndOfTrack ends the track, one byte on; errors call nothing |
| Midi.EventDataAt | midi.go:171-490 | a status type with no case, including control and program change, reads and calls nothing |
| Midi.TrackEventStep | midi.go:140-493 | a missing delta-time is UnexpectedEndOfFile; the callback carries the delta-time as read; the lexer leaves the track exactly at EndOfTrack |
| Midi.NextStep | midi.go:71-497 | one call of next() as written (ExpectChunk is ChunkStepAsWritten) never reads backwards, makes at most two callbacks, and on error makes none and keeps the state |
| Midi.Steps | midi.go:71-497 | k calls of next() as written make at most 2k callbacks and never read backwards |
| Midi.MidiLexer.constructor | midi.go:52-54 | a new lexer expects the header, with nextChunkHeader 0 and no callbacks made |
| Midi.MidiLexer.Next | midi.go:71-497 | never reports finished; error, new state, nextChunkHeader, cursor and appended callbacks are exactly NextStep's |
| Midi.MidiLexer.LexHeader | midi.go:87-111 | the ExpectHeader branch does exactly what HeaderStep says |
| Midi.MidiLexer.LexChunk | midi.go:113-138 | the ExpectChunk branch, seeking by nextChunkHeader as the code does, does exactly what ChunkStepAsWritten says |
| Midi.MidiLexer.LexTrackEvent | midi.go:140-493 | the ExpectTrackEvent branch does exactly what TrackEventStep says |
| Midi.MidiLexer.LexChannelEvent | midi.go:171-250 | the channel message cases do exactly what ChannelEventAt says |
| Midi.MidiLexer.LexMetaEvent | midi.go:253-486 | the meta-event case does exactly what MetaEventAt says |
| MidiLemmas.TextCommand | midi.go:300-398 | every text event has a command byte 1 to 7 that TextEvent maps back to it |
| MidiLemmas.EventBody | midi.go:171-490 | encoder: the status byte and data of a track event, at least two bytes |
| MidiLemmas.DeltaOfEncoding | midi.go:159-164 | the delta-time of an encoded event is read back and ends where its body starts |
| MidiLemmas.TrackEventAfterDelta | midi.go:166-171 | after the delta-time the status byte is split and its data is read from the next byte |
| MidiLemmas.NoteStep | midi.go:173-208 | a note message after a delta-time makes one note callback, three bytes on |
| MidiLemmas.ChannelPressureStep | midi.go:228-237 | a channel pressure message makes ChannelAfterTouch, two bytes on |
| MidiLemmas.PitchWheelStep | midi.go:240-250 | a pitch-wheel message makes PitchWheel with both values, three bytes on |
| MidiLemmas.MetaStep | midi.go:253-266 | status FF reads a meta event |
| MidiLemmas.SequenceNumberData | midi.go:271-297 | length 2 then a uint16 gives a given sequence number |
| MidiLemmas.NoSequenceNumberData | midi.go:280-285 | length 0 gives SequenceNumber(0, not given) |
| MidiLemmas.TextData | midi.go:300-398 | commands 1 to 7 read a text and make the matching text callback |
| MidiLemmas.EndOfTrackData | midi.go:401-409 | command 2F makes EndOfTrack and ends the track without reading the length byte |
| MidiLemmas.NoteEventRoundTrip | midi.go:173-208 | every encodable note event reads back from its encoding |
| MidiLemmas.ChannelPressureEventRoundTrip | midi.go:228-237 | every encodable channel pressure event reads back |
| MidiLemmas.PitchWheelEventRoundTrip | midi.go:240-250 | every encodable pitch-wheel event reads back |
| MidiLemmas.ChannelEventRoundTrip | midi.go:173-250 | every channel event the lexer reports reads back from its encoding and stays in the track |
| MidiLemmas.SequenceNumberEventRoundTrip | midi.go:271-297 | a given sequence number reads back |
| MidiLemmas.NoSequenceNumberEventRoundTrip | midi.go:280-285 | an absent sequence number reads back |
| MidiLemmas.TextEventRoundTrip | midi.go:300-398 | every text event reads back from its encoding |
| MidiLemmas.EndOfTrackEventRoundTrip | midi.go:401-409 | an end of track reads back and leaves the track, one byte short of its encoding |
| MidiLemmas.TrackEventRoundTrip | midi.go:140-493 | every event the lexer can report from a track is read back by one step from its encoding |
| MidiLemmas.HeaderDataErrors | midi_functions.go:224-268 | the header data decoder fails only with UnexpectedEndOfFile or UnsupportedSmfFormat |
| MidiLemmas.HeaderStepOutcomes | midi.go:87-111 | ExpectedMthd exactly when the input lacks MThd at the cursor; success exactly when it has MThd and the header data after the eight bytes reads; the chunk length is ignored |
| MidiLemmas.HeaderRoundTrip | midi.go:87-111 | an encoded MThd chunk gives Began and Header with its data and moves to ExpectChunk, 14 bytes on |
| MidiLemmas.ChunkStepsAgree | midi.go:113-138 | the step as written and the corrected step agree if and only if the chunk header is unreadable, the chunk is MTrk, it starts at 0, the corrected skip is already past the end, or the chunk is empty and the written skip is past the end |
| MidiLemmas.TrackChunkRoundTrip | midi.go:113-138 | an encoded MTrk header calls Track, enters the track and records length + start, in both the as-written and the corrected step |
| MidiLemmas.UnknownChunkSkipped | midi.go:127-133 | (corrected) an unknown chunk is reported and skipped whole, and the next chunk is expected right after it |
| MidiLemmas.UnknownChunkSkippedAsWritten | midi.go:125-129 | (as written) the skip lands at start + 8 + length + start, or stays just past the header when that is past the end |
| MidiLemmas.StatusByteMissing | midi.go:166-171 | a delta-time at the end of input succeeds with no callback: the status byte error is ignored |
| MidiLemmas.IgnoredStatus | midi.go:171-253 | data bytes as status, control change, program change and non-meta F messages consume only the status byte and call nothing |
| MidiLemmas.IgnoredMetaCommand | midi.go:411-486 | an unknown meta command consumes FF and the command and calls nothing |
| MidiRuns.TrackBytes | midi.go:140-493 | encoder: a track's events one after another |
| MidiRuns.EndBytes | midi.go:401-409 | encoder: FF 2F 00 after a delta-time |
| MidiRuns.AtSlice | midi.go:140-493 | bytes at a position, compared one by one, are the slice there |
| MidiRuns.EventAt | midi.go:140-493 | an encoded event anywhere in the input is read by one step |
| MidiRuns.HeadAt | midi.go:140-493 | the first event of a track is read by one step that stays in the track |
| MidiRuns.StepsAfterStep | midi.go:71-497 | a step that reads one event, then k that end the track, are k + 1 steps that read them all |
| MidiRuns.EndAt | midi.go:401-409 | an encoded end of track alone is one step that leaves the track with the cursor on its length byte |
| MidiRuns.StepsAfterHead | midi.go:140-493 | a step that reads a track's first event, then the steps that read the rest, read the whole track |
| MidiRuns.TrackRoundTrip | midi.go:140-493 | an encoded track of n events is read in n + 1 steps that report its events and then EndOfTrack, with no error, and leave the track |
| MidiRuns.HeaderChunkBytes | midi.go:87-111 | encoder: a 14-byte MThd chunk |
| MidiRuns.HeaderAt | midi.go:87-111 | a header chunk at the start is read by the first step |
| MidiRuns.TrackChunkAt | midi.go:113-138 | an MTrk header is read by one step that enters the track |
| MidiRuns.StepsAfter | midi.go:71-497 | a successful step followed by k more is k + 1 steps |
| MidiRuns.FileSteps | midi.go:71-497 | header step, track header step and the track's steps make one run from the start |
| MidiRuns.FileRoundTrip | midi.go:71-497 | a file of one encoded track of n events is read in n + 3 calls: Began, Header, Track, its events, then EndOfTrack |
| MidiExamples.HeaderExample | midi_lexer_test.go:40-76 | the test header gives Began and Header(1, 2, metrical, 200) and moves to ExpectChunk |
| MidiExamples.BadHeaderExample | midi_lexer_test.go:678-690 | a header tagged DEADBEEF is ExpectedMthd |
| MidiExamples.TrackChunkExample | midi_lexer_test.go:139-165 | an MTrk chunk of length 0xEE enters the track |
| MidiExamples.SkipUnknownChunkExample | midi_lexer_test.go:80-109 | an unknown two-byte chunk at the start is skipped to byte 10: the as-written and the corrected step give the same result |
| MidiExamples.UnknownChunkAfterHeaderExample | midi.go:125-129 | an unknown chunk after a header: as written the cursor stays on its data at 22, where no MTrk is; corrected it lands on the MTrk at 24; the lexer's own step, NextStep, leaves it at 22 |
| MidiExamples.EndOfInputExample | midi_lexer_test.go:113-135 | expecting a chunk at the end of the input is UnexpectedEndOfFile |
| MidiExamples.EventExample | midi_lexer_test.go:183-304 | any encodable event other than end of track is read by one step |
| MidiExamples.NoteOffExample | midi_lexer_test.go:183-210 | 40 85 04 03 is NoteOff(5, 4, 3) at delta 0x40 |
| MidiExamples.NoteOnExample | midi_lexer_test.go:213-240 | 40 95 04 03 is NoteOn(5, 4, 3) at delta 0x40 |
| MidiExamples.PolyphonicAfterTouchExample | midi_lexer_test.go:243-270 | 40 A7 12 34 is PolyphonicAfterTouch on channel 7 |
| MidiExamples.ChannelPressureExample | midi_lexer_test.go:279-304 | 40 D8 56 is ChannelAfterTouch(8, 0x56) |
| MidiExamples.PitchWheelExample | midi_lexer_test.go:308-393 | three pitch-wheel events in a row, each with its own delta-time |
| MidiExamples.PitchWheelBytes | midi_lexer_test.go:308-393 | the test bytes are the encodings of those events |
| MidiExamples.NoSequenceNumberExample | midi_lexer_test.go:397-424 | FF 00 00 is a sequence number not given |
| MidiExamples.SequenceNumberExample | midi_lexer_test.go:427-455 | FF 00 02 A7 C5 is sequence number 42949 |
| MidiExamples.TextExample | midi_lexer_test.go:458-644 | each of the seven text commands with the same sixteen-byte text |
| MidiExamples.EndOfTrackExample | midi_lexer_test.go:648-671 | FF 2F 00 is EndOfTrack and leaves the track after three bytes |
| Scenarios.ReadSeekerReads | midi_mocks_test.go:21-76 | reads of 3, 3, 1 and 0 bytes into a three-byte buffer, the old contents kept behind a short read |
| Scenarios.MockReaderReads | midi/midi_test.go:53-113 | the same reads through the old forward-only reader |
| Scenarios.SeeksFromStart | midi_mocks_test.go:92-161 | seeks to 6, 2 and 0 from the start, each followed by reading that byte |
| Scenarios.SeeksFromCurrent | midi_mocks_test.go:163-220 | a relative seek by 0 reports the position; by 1 skips a byte |
| Scenarios.SeeksFromEnd | midi_mocks_test.go:222-266 | a seek to the end reads nothing and keeps the buffer; a seek one back reads the last byte |
| Scenarios.LexHeaderChunk | midi_lexer_test.go:40-76 | one call on the header bytes logs Began then Header and expects a chunk |
| Scenarios.HeaderScenario | midi_lexer_test.go:40-76 | the counting callback then shows Began once, Header once with the header's values, and no Track |
| Scenarios.SkipUnknownChunkScenario | midi_lexer_test.go:80-109 | after an unknown chunk the cursor is at the next chunk, 10 |
| Scenarios.EndOfInputScenario | midi_lexer_test.go:113-135 | expecting a chunk on empty input returns UnexpectedEndOfFile and keeps the state |
| Scenarios.LexNoteOff | midi_lexer_test.go:183-210 | one call logs NoteOff(5, 4, 3) at delta 0x40 |
| Scenarios.NoteOffScenario | midi_lexer_test.go:183-210 | the counting callback shows one NoteOff with those arguments |
| Scenarios.LexPitchWheels | midi_lexer_test.go:308-393 | three calls log the three pitch-wheel events in order |
| Scenarios.PitchWheelScenario | midi_lexer_test.go:308-393 | the callback sees delta-times 0x10, 0x20, 0x50, not a running total, with values (0, 0x2000), (-0xDCC, 0x1234), (0, 0x2000) |

## Left out

- `Lex` (midi.go:57-67) checks only that the callback and reader are not nil. Dafny references are never nil, so there is nothing to model.
- The `fmt.Println` tracing in `next()` is output only and is left out.
- The live `MidiLexerCallback` interface value is not modelled. The lexer logs its callbacks as `Event` values instead. The scenarios replay that log into a `CountingLexerCallback` through `Deliver`. The log is in call order, so nothing the lexer does is lost.
- `MockLexerCallback` (mocks.go:22-63) is left out. Its methods do nothing.
- The callbacks the lexer never makes are left out: the system real-time ones, `Done`, tempo, key signature and time signature. `CountingLexerCallback` keeps no counters for them.
- Go returns a value beside a non-nil error from most decoders. The model drops it, except for `parseChunkHeader`, whose value the lexer looks at.
- `MockReadSeeker.Read` and `MockReader.Read` (mocks.go:249-261, midi/mocks.go:55-66) always return a nil error, so the model returns only the count.
- `MockReadSeeker.Seek` takes an `int64` offset, which is unbounded here. Go would panic on a later `Read` after a seek to a negative position. The model has that seek succeed, as Go's Seek does, and only the non-negative offsets are given properties.
- `Midi.MidiLexer.Next`: the `Seek(0, 1)` at midi.go:77-81 cannot fail on the mock, so its error return is never taken.
- `Midi.ChunkStep` and `Midi.ChunkStepAsWritten`: `nextChunkHeader` is an `int64` in Go. It is set from a uint32 plus a file position and only read by commented-out code. The model keeps it as an unbounded `int` and does not model int64 overflow.
- Control change (0xB) and program change (0xC) read no data bytes, as in the source. System exclusive and the other F0-FE messages read nothing either. Their data bytes are then read as the next event.
- The MThd chunk length is never checked, as in the source. Header data is read from just after the eight-byte chunk header.
- `Midi.MetaEventAt`: EndOfTrack does not read its length byte, as in the source. `MidiLemmas.EndOfTrackEventRoundTrip` states the step ending one byte short of the encoding.
- The lexer has no Done state and `next()` never returns finished = true. The test at midi_lexer_test.go:113-135 expects finished after the end of the input. The code returns UnexpectedEndOfFile with the state kept, and the model follows the code (`Scenarios.EndOfInputScenario`).
- `MidiValues.KeySignatureFromSharpsOrFlats`: the Go function this models is not among the source files. It is modelled from the table of music_test.go:31-213, for -7 to 7 accidentals and modes 0 and 1, which is the range that table covers.
- `MidiRuns.FileRoundTrip` covers files with one track. Files with more tracks would chain the same lemmas once per track.

## Findings

| source | as written | input that shows it | evidently intended | confidence | as-written member | corrected member |
|---|---|---|---|---|---|---|
| midi.go:125-129 | an unknown chunk is skipped by `Seek(Length + currentPosition, 1)`. The seek runs from just past the chunk header, where the cursor is, so the chunk's start position is added twice. Its error is ignored. | a 14-byte MThd chunk, then an unknown chunk with two bytes of data, then an MTrk header: 32 bytes in all. The skip aims at 22 + 2 + 14 = 38, past the end, so the seek fails. The cursor stays at 22, and the next chunk header is read from the unknown chunk's data. | `Seek(Length, 1)`, landing at 24 on the MTrk header | not executed | Midi.ChunkStepAsWritten, MidiLemmas.UnknownChunkSkippedAsWritten, MidiExamples.UnknownChunkAfterHeaderExample | Midi.ChunkStep, MidiLemmas.UnknownChunkSkipped, MidiLemmas.ChunkStepsAgree |
