/** The lexer's test inputs, one step each, derived from the general properties
    of MidiLemmas. Each input is a parameter equal to the test's bytes. */
module MidiExamples {
  import opened GoTypes
  import opened MidiErrors
  import opened MidiStructs
  import opened MidiValues
  import opened MidiInterfaces
  import opened Decoding
  import opened DecodingLemmas
  import opened Midi
  import opened MidiLemmas

  // ---------------------------------------------------------------------------
  // Header and chunks.

  lemma SmallVarLength(v: nat)
    requires v < 0x80
    ensures VarLengthBytes(v) == [v as byte]
  {
  }

  lemma SmallUint16(v: uint16)
    requires v < 0x100
    ensures Uint16Bytes(v) == [0x00, v]
  {
  }

  lemma SmallUint32(v: uint32)
    requires v < 0x100
    ensures Uint32Bytes(v) == [0x00, 0x00, 0x00, v]
  {
    assert v / 0x100_0000 == 0 && v / 0x1_0000 == 0 && v / 0x100 == 0 && v % 0x100 == v;
  }

  /** Format 1, two tracks, 200 ticks per quarter note. */
  lemma HeaderExample(data: seq<byte>, n: int)
    requires data == [0x4D, 0x54, 0x68, 0x64, 0x00, 0x00, 0x00, 0x06, 0x00, 0x01, 0x00, 0x02, 0x00, 0xC8]
    ensures HeaderStep(data, 0, n) ==
            Step(None, ExpectChunk, n, 14, [Began, Header(HeaderData(1, 2, MetricalTimeFormat, 0, 200))])
  {
    var h := HeaderData(1, 2, MetricalTimeFormat, 0, 200);
    HeaderBody(h);
    MThdChunk(ChunkHeaderBytes(ChunkHeader(MThd, 6)));
    HeaderConcat(data, ChunkHeaderBytes(ChunkHeader(MThd, 6)), HeaderDataBytes(h));
    HeaderRoundTrip(h, 6, [], [], n);
  }

  lemma MThdChunk(chunk: seq<byte>)
    requires chunk == ChunkHeaderBytes(ChunkHeader(MThd, 6))
    ensures chunk == [0x4D, 0x54, 0x68, 0x64, 0x00, 0x00, 0x00, 0x06]
  {
    SmallUint32(6);
  }

  lemma HeaderBody(h: HeaderData)
    requires h == HeaderData(1, 2, MetricalTimeFormat, 0, 200)
    ensures ValidHeaderData(h) && HeaderDataBytes(h) == [0x00, 0x01, 0x00, 0x02, 0x00, 0xC8]
  {
    assert ValidHeaderData(h) && DivisionOf(h) == 200;
    HeaderWords(h, HeaderDataBytes(h));
    SmallWords();
  }

  lemma HeaderWords(h: HeaderData, body: seq<byte>)
    requires h == HeaderData(1, 2, MetricalTimeFormat, 0, 200) && ValidHeaderData(h) && DivisionOf(h) == 200
    requires body == HeaderDataBytes(h)
    ensures body == Uint16Bytes(1) + Uint16Bytes(2) + Uint16Bytes(200)
  {
  }

  lemma SmallWords()
    ensures Uint16Bytes(1) + Uint16Bytes(2) + Uint16Bytes(200) == [0x00, 0x01, 0x00, 0x02, 0x00, 0xC8]
  {
    SmallUint16(1);
    SmallUint16(2);
    SmallUint16(200);
  }

  lemma HeaderConcat(data: seq<byte>, chunk: seq<byte>, body: seq<byte>)
    requires data == [0x4D, 0x54, 0x68, 0x64, 0x00, 0x00, 0x00, 0x06, 0x00, 0x01, 0x00, 0x02, 0x00, 0xC8]
    requires chunk == [0x4D, 0x54, 0x68, 0x64, 0x00, 0x00, 0x00, 0x06]
    requires body == [0x00, 0x01, 0x00, 0x02, 0x00, 0xC8]
    ensures data == [] + chunk + body + []
  {
  }

  lemma BadHeaderExample(data: seq<byte>, n: int)
    requires data == [0xDE, 0xAD, 0xBE, 0xEF, 0x00, 0x00, 0x00, 0x06, 0x00, 0x01, 0x00, 0x02, 0x00, 0xC8]
    ensures HeaderStep(data, 0, n) == Step(Some(ExpectedMthd), ExpectHeader, n, 8, [])
  {
    assert data[0..4] != MThd by { assert data[0] != MThd[0]; }
  }

  /** An MTrk chunk of length 0xEE. */
  lemma TrackChunkExample(data: seq<byte>)
    requires data == [0x4D, 0x54, 0x72, 0x6B, 0x00, 0x00, 0x00, 0xEE, 0x00, 0x01, 0x00, 0x02, 0x00, 0xC8]
    ensures ChunkStepAsWritten(data, 0, 0) == Step(None, ExpectTrackEvent, 0xEE, 8, [Track(ChunkHeader(MTrk, 0xEE))])
  {
    var rest: seq<byte> := [0x00, 0x01, 0x00, 0x02, 0x00, 0xC8];
    SmallUint32(0xEE);
    assert ChunkHeaderBytes(ChunkHeader(MTrk, 0xEE)) == [0x4D, 0x54, 0x72, 0x6B, 0x00, 0x00, 0x00, 0xEE];
    assert data == [] + ChunkHeaderBytes(ChunkHeader(MTrk, 0xEE)) + rest;
    TrackChunkRoundTrip(0xEE, [], rest, 0);
  }

  /** An unknown chunk at the start of the input that claims two bytes of data:
      the lexer lands on the next chunk, at 10. At position 0 the code as
      written does the same. */
  lemma SkipUnknownChunkExample(data: seq<byte>, n: int)
    requires data == [0xDE, 0xAD, 0xBE, 0xEF, 0x00, 0x00, 0x00, 0x02, 0xCA, 0xFE,
                      0x4D, 0x54, 0x68, 0x64, 0x00, 0x00, 0x00, 0x06, 0x00, 0x01, 0x00, 0x02, 0x00, 0xC8]
    ensures ChunkStepAsWritten(data, 0, n) == ChunkStep(data, 0, n) ==
            Step(None, ExpectChunk, 0, 10, [Track(ChunkHeader([0xDE, 0xAD, 0xBE, 0xEF], 2))])
  {
    var tag: seq<byte> := [0xDE, 0xAD, 0xBE, 0xEF];
    var body: seq<byte> := [0xCA, 0xFE];
    var rest: seq<byte> := [0x4D, 0x54, 0x68, 0x64, 0x00, 0x00, 0x00, 0x06, 0x00, 0x01, 0x00, 0x02, 0x00, 0xC8];
    assert tag != MTrk by { assert tag[0] != MTrk[0]; }
    UnknownChunkBytes(tag, ChunkHeaderBytes(ChunkHeader(tag, 2)));
    UnknownChunkConcat(data, ChunkHeaderBytes(ChunkHeader(tag, 2)), body, rest);
    UnknownChunkSkipped(tag, body, [], rest, n);
    ChunkStepsAgree(data, 0, n);
  }

  lemma UnknownChunkBytes(tag: seq<byte>, chunk: seq<byte>)
    requires tag == [0xDE, 0xAD, 0xBE, 0xEF] && chunk == ChunkHeaderBytes(ChunkHeader(tag, 2))
    ensures chunk == [0xDE, 0xAD, 0xBE, 0xEF, 0x00, 0x00, 0x00, 0x02]
  {
    SmallUint32(2);
  }

  lemma UnknownChunkConcat(data: seq<byte>, chunk: seq<byte>, body: seq<byte>, rest: seq<byte>)
    requires data == [0xDE, 0xAD, 0xBE, 0xEF, 0x00, 0x00, 0x00, 0x02, 0xCA, 0xFE,
                      0x4D, 0x54, 0x68, 0x64, 0x00, 0x00, 0x00, 0x06, 0x00, 0x01, 0x00, 0x02, 0x00, 0xC8]
    requires chunk == [0xDE, 0xAD, 0xBE, 0xEF, 0x00, 0x00, 0x00, 0x02] && body == [0xCA, 0xFE]
    requires rest == [0x4D, 0x54, 0x68, 0x64, 0x00, 0x00, 0x00, 0x06, 0x00, 0x01, 0x00, 0x02, 0x00, 0xC8]
    ensures data == [] + chunk + body + rest
  {
  }

  /** After a 14-byte header, an unknown chunk with two bytes of data and then
      a track chunk header: as written, the skip aims at 14 + 8 + 2 + 14 = 38,
      past the end of the 32 bytes, so the cursor stays on the unknown chunk's
      data and the next chunk header is read from there, which is where the
      lexer's own step leaves it; the corrected skip lands on the track chunk. */
  lemma UnknownChunkAfterHeaderExample(header: seq<byte>, tag: seq<byte>, body: seq<byte>, track: seq<byte>, n: int)
    requires |header| == 14 && |tag| == 4 && tag != MTrk && |body| == 2
    requires track == ChunkHeaderBytes(ChunkHeader(MTrk, 0))
    ensures var data := header + ChunkHeaderBytes(ChunkHeader(tag, 2)) + body + track;
      |data| == 32 &&
      ChunkStepAsWritten(data, 14, n).pos == 22 && data[22..26] != MTrk &&
      ChunkStep(data, 14, n).pos == 24 && data[24..28] == MTrk &&
      NextStep(data, 14, ExpectChunk, n).pos == 22
  {
    var data := header + ChunkHeaderBytes(ChunkHeader(tag, 2)) + body + track;
    SkipLandsAt(tag, body, header, track, n);
    assert data[24..] == track;
    assert track[..4] == MTrk;
    TrackHeaderAt(data, track);
  }

  lemma SkipLandsAt(tag: seq<byte>, body: seq<byte>, header: seq<byte>, track: seq<byte>, n: int)
    requires |header| == 14 && |tag| == 4 && tag != MTrk && |body| == 2 && |track| == 8
    ensures var data := header + ChunkHeaderBytes(ChunkHeader(tag, 2)) + body + track;
      ChunkStepAsWritten(data, 14, n).pos == 22 && ChunkStep(data, 14, n).pos == 24 &&
      NextStep(data, 14, ExpectChunk, n).pos == 22
  {
    UnknownChunkSkippedAsWritten(tag, body, header, track, n);
    UnknownChunkSkipped(tag, body, header, track, n);
  }

  lemma TrackHeaderAt(data: seq<byte>, track: seq<byte>)
    requires |track| == 8 && track[..4] == MTrk && |data| == 32 && data[24..] == track
    ensures data[22..26] != MTrk && data[24..28] == MTrk
  {
    assert data[24..28] == track[..4];
    assert data[22..26][2] == data[24] == MTrk[0];
  }

  /** At the end of the input a chunk header cannot be read: the lexer returns
      UnexpectedEndOfFile and stays in ExpectChunk. */
  lemma EndOfInputExample(data: seq<byte>, n: int)
    requires data == []
    ensures ChunkStepAsWritten(data, 0, n) == Step(Some(UnexpectedEndOfFile), ExpectChunk, n, 0, [])
  {
  }

  // ---------------------------------------------------------------------------
  // Track events.

  lemma EventExample(e: Event, data: seq<byte>)
    requires Encodable(e) && !e.EndOfTrack? && EventBytes(e) == data
    ensures NextStep(data, 0, ExpectTrackEvent, 0) == Step(None, ExpectTrackEvent, 0, |data|, [e])
  {
    TrackEventRoundTrip(e, [], [], 0);
    assert [] + EventBytes(e) + [] == data;
  }

  lemma NoteOffExample(data: seq<byte>)
    requires data == [0x40, 0x85, 0x04, 0x03]
    ensures NextStep(data, 0, ExpectTrackEvent, 0) == Step(None, ExpectTrackEvent, 0, 4, [NoteOff(0x05, 0x04, 0x03, 0x40)])
  {
    assert VarLengthBytes(0x40) == [0x40];
    EventExample(NoteOff(0x05, 0x04, 0x03, 0x40), data);
  }

  lemma NoteOnExample(data: seq<byte>)
    requires data == [0x40, 0x95, 0x04, 0x03]
    ensures NextStep(data, 0, ExpectTrackEvent, 0) == Step(None, ExpectTrackEvent, 0, 4, [NoteOn(0x05, 0x04, 0x03, 0x40)])
  {
    assert VarLengthBytes(0x40) == [0x40];
    EventExample(NoteOn(0x05, 0x04, 0x03, 0x40), data);
  }

  lemma PolyphonicAfterTouchExample(data: seq<byte>)
    requires data == [0x40, 0xA7, 0x12, 0x34]
    ensures NextStep(data, 0, ExpectTrackEvent, 0) ==
            Step(None, ExpectTrackEvent, 0, 4, [PolyphonicAfterTouch(0x07, 0x12, 0x34, 0x40)])
  {
    assert VarLengthBytes(0x40) == [0x40];
    EventExample(PolyphonicAfterTouch(0x07, 0x12, 0x34, 0x40), data);
  }

  lemma ChannelPressureExample(data: seq<byte>)
    requires data == [0x40, 0xD8, 0x56]
    ensures NextStep(data, 0, ExpectTrackEvent, 0) == Step(None, ExpectTrackEvent, 0, 3, [ChannelAfterTouch(0x08, 0x56, 0x40)])
  {
    assert VarLengthBytes(0x40) == [0x40];
    EventExample(ChannelAfterTouch(0x08, 0x56, 0x40), data);
  }

  /** Three pitch wheel events in a row, each read from where the last ended. */
  lemma PitchWheelExample(first: seq<byte>, second: seq<byte>, third: seq<byte>, data: seq<byte>)
    requires first == [0x10, 0xE9, 0x00, 0x40] && second == [0x20, 0xE8, 0x34, 0x24] && third == [0x50, 0xE7, 0x00, 0x40]
    requires data == first + second + third
    ensures NextStep(data, 0, ExpectTrackEvent, 0) == Step(None, ExpectTrackEvent, 0, 4, [PitchWheel(0x09, 0, 0x2000, 0x10)])
    ensures NextStep(data, 4, ExpectTrackEvent, 0) == Step(None, ExpectTrackEvent, 0, 8, [PitchWheel(0x08, -0xDCC, 0x1234, 0x20)])
    ensures NextStep(data, 8, ExpectTrackEvent, 0) == Step(None, ExpectTrackEvent, 0, 12, [PitchWheel(0x07, 0, 0x2000, 0x50)])
  {
    PitchWheelBytes(0x09, 0, 0x2000, 0x10, first);
    PitchWheelBytes(0x08, -0xDCC, 0x1234, 0x20, second);
    PitchWheelBytes(0x07, 0, 0x2000, 0x50, third);
    ThreeParts(data, first, second, third);
    TrackEventRoundTrip(PitchWheel(0x09, 0, 0x2000, 0x10), [], second + third, 0);
    TrackEventRoundTrip(PitchWheel(0x08, -0xDCC, 0x1234, 0x20), first, third, 0);
    TrackEventRoundTrip(PitchWheel(0x07, 0, 0x2000, 0x50), first + second, [], 0);
  }

  /** Three messages one after the other, seen from each of them. */
  lemma ThreeParts(data: seq<byte>, first: seq<byte>, second: seq<byte>, third: seq<byte>)
    requires data == first + second + third
    ensures data == [] + first + (second + third)
    ensures data == first + second + third
    ensures data == (first + second) + third + []
  {
  }

  lemma PitchWheelBytes(channel: uint8, relative: int16, absolute: uint16, t: uint32, bytes: seq<byte>)
    requires channel < 0x10 && t < 0x80 && absolute < 0x4000 && relative == absolute - 0x2000
    requires bytes == [t, 0xE0 + channel, absolute % 0x80, absolute / 0x80]
    ensures Encodable(PitchWheel(channel, relative, absolute, t)) && EventBytes(PitchWheel(channel, relative, absolute, t)) == bytes
  {
    assert VarLengthBytes(t) == [t];
  }

  lemma NoSequenceNumberExample(data: seq<byte>)
    requires data == [0x09, 0xFF, 0x00, 0x00]
    ensures NextStep(data, 0, ExpectTrackEvent, 0) == Step(None, ExpectTrackEvent, 0, 4, [SequenceNumber(0xF, 0, false, 0x09)])
  {
    assert VarLengthBytes(0x09) == [0x09];
    EventExample(SequenceNumber(0xF, 0, false, 0x09), data);
  }

  lemma SequenceNumberExample(data: seq<byte>)
    requires data == [0x09, 0xFF, 0x00, 0x02, 0xA7, 0xC5]
    ensures NextStep(data, 0, ExpectTrackEvent, 0) == Step(None, ExpectTrackEvent, 0, 6, [SequenceNumber(0xF, 42949, true, 0x09)])
  {
    assert VarLengthBytes(0x09) == [0x09];
    assert Uint16Bytes(42949) == [0xA7, 0xC5];
    EventExample(SequenceNumber(0xF, 42949, true, 0x09), data);
  }

  /** "joe@afandian.com". */
  const Address: seq<byte> := [0x6A, 0x6F, 0x65, 0x40, 0x61, 0x66, 0x61, 0x6E, 0x64, 0x69, 0x61, 0x6E, 0x2E, 0x63, 0x6F, 0x6D]

  /** Each of the seven text commands, with the same sixteen-byte text. */
  lemma TextExample(command: uint8, data: seq<byte>)
    requires 0x01 <= command <= 0x07 && data == [0x09, 0xFF, command, 0x10] + Address
    ensures NextStep(data, 0, ExpectTrackEvent, 0) == Step(None, ExpectTrackEvent, 0, 20, [TextEvent(command, 0xF, Address, 0x09)])
  {
    SmallVarLength(0x09);
    SmallVarLength(16);
    TextConcat(command, data, VarLengthBytes(0x09), [0xFF, command] + VarLengthBytes(|Address|) + Address);
    TextRoundTripStep(command, Address, 0x09, [], [], 0);
  }

  lemma TextConcat(command: uint8, data: seq<byte>, delta: seq<byte>, body: seq<byte>)
    requires data == [0x09, 0xFF, command, 0x10] + Address
    requires delta == [0x09] && body == [0xFF, command] + [0x10] + Address
    ensures data == [] + delta + body + []
  {
  }

  /** End of track is read without its length byte and leaves the track. */
  lemma EndOfTrackExample(data: seq<byte>)
    requires data == [0x09, 0xFF, 0x2F, 0x00]
    ensures NextStep(data, 0, ExpectTrackEvent, 0) == Step(None, ExpectChunk, 0, 3, [EndOfTrack(0xF, 0x09)])
  {
    assert VarLengthBytes(0x09) == [0x09];
    assert data == [] + EventBytes(EndOfTrack(0xF, 0x09)) + [];
    TrackEventRoundTrip(EndOfTrack(0xF, 0x09), [], [], 0);
  }
}
